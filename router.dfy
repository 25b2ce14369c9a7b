/**
 * The request handler `lambda_handler` and `build_response`. `Handle` states what one
 * invocation does: the outcome, the calls it makes on the task table and the table
 * afterwards. `LambdaHandler` does the same step by step on a `TaskTable`, and its
 * contract is that it agrees with `Handle`.
 */
module Router {
  import opened Wrappers
  import opened Values
  import opened Store
  import opened UpdateBuilder

  // ----- the event -----

  /** `pathParameters` or `queryStringParameters`: missing, null, or a map of strings. */
  datatype Params = Missing | NullParams | Given(entries: map<string, string>)

  /** The parts of the API Gateway event the handler reads. `httpMethod` is None when
      `event['requestContext']['http']['method']` raises. */
  datatype Event = Event(
    routeKey: Option<string>,
    httpMethod: Option<string>,
    pathParameters: Params,
    queryStringParameters: Params,
    body: Option<string>)

  const CreateKey := "POST /tasks"
  const ListKey := "GET /tasks"
  const FetchKey := "GET /tasks/{id}"
  const UpdateKey := "PUT /tasks/{id}"
  const DeleteKey := "DELETE /tasks/{id}"

  /** The five routes the handler serves, and everything else. */
  datatype Route = CreateTask | ListTasks | FetchTask | UpdateTask | DeleteTask | Unsupported

  /** The route a route key selects, tested in the handler's order. */
  function RouteOf(routeKey: Option<string>): Route
  {
    if routeKey == Some(CreateKey) then CreateTask
    else if routeKey == Some(ListKey) then ListTasks
    else if routeKey == Some(FetchKey) then FetchTask
    else if routeKey == Some(UpdateKey) then UpdateTask
    else if routeKey == Some(DeleteKey) then DeleteTask
    else Unsupported
  }

  /** The route key of a served route. */
  function KeyOf(route: Route): string
    requires route != Unsupported
  {
    match route
    case CreateTask => CreateKey
    case ListTasks => ListKey
    case FetchTask => FetchKey
    case UpdateTask => UpdateKey
    case DeleteTask => DeleteKey
  }

  // ----- the response -----

  const CreatedMessage := "Tarefa criada"
  const NotFoundMessage := "Tarefa nao encontrada"
  const NothingToUpdateMessage := "Nenhum campo para atualizar"
  const UpdatedMessage := "Tarefa atualizada"
  const DeletedMessage := "Tarefa deletada"
  const UnsupportedMessage := "Rota nao suportada"

  /** The JSON body of a response, before `json.dumps`. */
  datatype Payload =
    | Message(message: string)                // {'message': ...}
    | Created(message: string, id: string)    // {'message': ..., 'id': ...}
    | Item(record: Record)                    // a stored item
    | Items(records: set<Record>)             // the items of a scan
    | Error(error: Fault)                     // {'error': str(e)}

  datatype Response = Response(statusCode: int, headers: map<string, string>, body: Payload)

  const JsonHeaders: map<string, string> := map["Content-Type" := "application/json"]

  /** `build_response`: the status, the JSON content type and the body. */
  function BuildResponse(status: int, body: Payload): (r: Response)
    ensures r.statusCode == status && r.body == body
    ensures r.headers.Keys == {"Content-Type"} && r.headers["Content-Type"] == "application/json"
  {
    Response(status, JsonHeaders, body)
  }

  /** The `except` branch: 500 and the exception. */
  function Failed(f: Fault): Response
  {
    BuildResponse(500, Error(f))
  }

  // ----- reading the request -----

  /** The body: None when the event has no body or an empty one, `{}` when it is not
      valid JSON, the parsed value otherwise. */
  function ParseBody(raw: Option<string>, decode: string -> Option<Value>): Value
  {
    if raw.None? || raw.value == "" then Null
    else match decode(raw.value)
      case None => Obj(map[])
      case Some(v) => v
  }

  /** `path_parameters.get('id')`, where a missing `pathParameters` is `{}`. */
  function PathId(p: Params): Result<Value, Fault>
  {
    match p
    case Missing => Success(Null)
    case NullParams => Failure(NoAttribute("NoneType", "get"))
    case Given(m) => Success(if "id" in m then Str(m["id"]) else Null)
  }

  /** The scan filter: the `date` query parameter when the parameters and the date are non-empty. */
  function DateFilter(q: Params): Option<string>
  {
    if q.Given? && q.entries != map[] && "date" in q.entries && q.entries["date"] != ""
    then Some(q.entries["date"])
    else None
  }

  /** The item `POST /tasks` stores, or the exception `body.get` raises on a non-dict. */
  function NewItem(body: Value, taskId: string, now: string): Result<Record, Fault>
  {
    if !body.Obj? then Failure(NoAttribute(TypeName(body), "get"))
    else Success(map[
      KeyAttribute := Str(taskId),
      "titulo" := GetOrNull(body, "titulo").value,
      "descricao" := GetOrNull(body, "descricao").value,
      "data" := GetOrNull(body, "data").value,
      "created_at" := Str(now)])
  }

  // ----- one invocation -----

  /** What a route does before touching the table: answer at once, or make one call. */
  datatype Step = Reply(response: Response) | Issue(command: Command)

  function Plan(route: Route, ev: Event, body: Value, taskId: string, now: string): Step
  {
    match route
    case CreateTask => CreatePlan(NewItem(body, taskId, now))
    case ListTasks => Issue(Command.Scan(DateFilter(ev.queryStringParameters)))
    case FetchTask => FetchPlan(PathId(ev.pathParameters))
    case UpdateTask => UpdatePlan(PathId(ev.pathParameters), UpdateSpec(body))
    case DeleteTask => DeletePlan(PathId(ev.pathParameters))
    case Unsupported => Reply(BuildResponse(400, Message(UnsupportedMessage)))
  }

  /** `POST /tasks` from the new item: the exception building it, or the put call. */
  function CreatePlan(item: Result<Record, Fault>): Step
  {
    match item
    case Failure(f) => Reply(Failed(f))
    case Success(r) => Issue(Command.PutItem(r))
  }

  /** `GET /tasks/{id}` from the id lookup: its exception, or the get call. */
  function FetchPlan(pathId: Result<Value, Fault>): Step
  {
    match pathId
    case Failure(f) => Reply(Failed(f))
    case Success(id) => Issue(Command.GetItem(id))
  }

  /** `DELETE /tasks/{id}` from the id lookup: its exception, or the delete call. */
  function DeletePlan(pathId: Result<Value, Fault>): Step
  {
    match pathId
    case Failure(f) => Reply(Failed(f))
    case Success(id) => Issue(Command.DeleteItem(id))
  }

  /** `PUT /tasks/{id}` from the id lookup and the update built from the body: the first
      exception, 400 when the update sets nothing, else the update call. */
  function UpdatePlan(pathId: Result<Value, Fault>, built: Result<Update, Fault>): Step
  {
    match pathId
    case Failure(f) => Reply(Failed(f))
    case Success(id) =>
      match built
      case Failure(f) => Reply(Failed(f))
      case Success(u) =>
        if u.values == map[] then Reply(BuildResponse(400, Message(NothingToUpdateMessage)))
        else Issue(Command.UpdateItem(id, u.expression, u.values, NamesArgument(u.names)))
  }

  /** The response to a call the table accepted, read against the table before the call. */
  function Respond(c: Command, t: Table): Response
    requires Accepts(c)
  {
    match c
    case PutItem(item) => BuildResponse(201, Created(CreatedMessage, item[KeyAttribute].s))
    case Scan(dateFilter) => BuildResponse(200, Items(ScanResult(t, dateFilter)))
    case GetItem(key) =>
      (match Lookup(t, key.s)
       case Some(r) => BuildResponse(200, Item(r))
       case None => BuildResponse(404, Message(NotFoundMessage)))
    case UpdateItem(_, _, _, _) => BuildResponse(200, Message(UpdatedMessage))
    case DeleteItem(_) => BuildResponse(200, Message(DeletedMessage))
  }

  /** How an invocation ends: the exception escapes the handler, or it returns a response. */
  datatype Outcome = Unhandled | Returned(response: Response)

  /** An invocation: its outcome, the calls it made on the table and the table afterwards. */
  datatype Handling = Handling(outcome: Outcome, calls: seq<Command>, table: Table)

  /** What a step leads to on table t: a call the table rejects raises, and the handler answers 500. */
  function Perform(step: Step, t: Table): Handling
  {
    match step
    case Reply(r) => Handling(Returned(r), [], t)
    case Issue(c) =>
      if Accepts(c) then Handling(Returned(Respond(c, t)), [c], Apply(t, c))
      else Handling(Returned(Failed(StoreRejected)), [c], t)
  }

  /** One invocation of the handler on table t. `decode` is `json.loads` (None when it
      raises); taskId and now are what `uuid.uuid4()` and `datetime.now()` would give. */
  function Handle(ev: Event, decode: string -> Option<Value>, taskId: string, now: string, t: Table): Handling
  {
    if ev.httpMethod.None? then Handling(Unhandled, [], t)
    else Perform(Plan(RouteOf(ev.routeKey), ev, ParseBody(ev.body, decode), taskId, now), t)
  }

  /** The invocation as written, against a client that validates its parameters: the
      call made with `ExpressionAttributeNames=None` raises before it reaches the table,
      and the handler answers 500. */
  function HandleAsWritten(ev: Event, decode: string -> Option<Value>, taskId: string, now: string, t: Table): Handling
  {
    var h := Handle(ev, decode, taskId, now, t);
    if |h.calls| == 1 && !PassesValidation(h.calls[0])
    then Handling(Returned(Failed(StoreRejected)), h.calls, t)
    else h
  }

  /** The handler as it runs: the if/elif chain on the route key, each branch calling the
      table and building its response. */
  method LambdaHandler(table: TaskTable, ev: Event, decode: string -> Option<Value>, taskId: string, now: string)
    returns (out: Outcome)
    modifies table
    ensures out == Handle(ev, decode, taskId, now, old(table.items)).outcome
    ensures table.items == Handle(ev, decode, taskId, now, old(table.items)).table
  {
    if ev.httpMethod.None? {
      return Unhandled;
    }
    var body := ParseBody(ev.body, decode);
    var routeKey := ev.routeKey;
    if routeKey == Some(CreateKey) {
      out := CreateRoute(table, body, taskId, now);
    } else if routeKey == Some(ListKey) {
      out := ListRoute(table, ev);
    } else if routeKey == Some(FetchKey) {
      out := FetchRoute(table, ev);
    } else if routeKey == Some(UpdateKey) {
      out := UpdateRoute(table, ev, body);
    } else if routeKey == Some(DeleteKey) {
      out := DeleteRoute(table, ev);
    } else {
      out := Returned(BuildResponse(400, Message(UnsupportedMessage)));
    }
  }

  /** `POST /tasks`: store the new item and answer 201 with its id. */
  method CreateRoute(table: TaskTable, body: Value, taskId: string, now: string) returns (out: Outcome)
    modifies table
    ensures var h := Perform(CreatePlan(NewItem(body, taskId, now)), old(table.items));
            out == h.outcome && table.items == h.table
  {
    match NewItem(body, taskId, now)
    case Failure(f) => return Returned(Failed(f));
    case Success(item) =>
      var ok := table.PutItem(item);
      if !ok {
        return Returned(Failed(StoreRejected));
      }
      return Returned(BuildResponse(201, Created(CreatedMessage, taskId)));
  }

  /** `GET /tasks`: scan, filtered by the `date` query parameter when there is one. */
  method ListRoute(table: TaskTable, ev: Event) returns (out: Outcome)
    modifies table
    ensures var h := Perform(Issue(Command.Scan(DateFilter(ev.queryStringParameters))), old(table.items));
            out == h.outcome && table.items == h.table
  {
    var dateFilter := DateFilter(ev.queryStringParameters);
    var records := table.Scan(dateFilter);
    assert records == ScanResult(table.items, dateFilter);
    return Returned(BuildResponse(200, Items(records)));
  }

  /** `GET /tasks/{id}`: the stored item, or 404. */
  method FetchRoute(table: TaskTable, ev: Event) returns (out: Outcome)
    modifies table
    ensures var h := Perform(FetchPlan(PathId(ev.pathParameters)), old(table.items));
            out == h.outcome && table.items == h.table
  {
    match PathId(ev.pathParameters)
    case Failure(f) => return Returned(Failed(f));
    case Success(id) =>
      var ok, item := table.GetItem(id);
      if !ok {
        return Returned(Failed(StoreRejected));
      }
      match item
      case Some(r) => return Returned(BuildResponse(200, Item(r)));
      case None => return Returned(BuildResponse(404, Message(NotFoundMessage)));
  }

  /** `PUT /tasks/{id}`: build the update from the body, then apply it. */
  method UpdateRoute(table: TaskTable, ev: Event, body: Value) returns (out: Outcome)
    modifies table
    ensures var h := Perform(UpdatePlan(PathId(ev.pathParameters), UpdateSpec(body)), old(table.items));
            out == h.outcome && table.items == h.table
  {
    var pathId := PathId(ev.pathParameters);
    if pathId.Failure? {
      return Returned(Failed(pathId.error));
    }
    var built := BuildUpdate(body);
    out := UpdateWith(table, pathId, built);
  }

  /** Answers 400 when the update sets nothing, otherwise updates the item. */
  method UpdateWith(table: TaskTable, pathId: Result<Value, Fault>, built: Result<Update, Fault>) returns (out: Outcome)
    modifies table
    ensures var h := Perform(UpdatePlan(pathId, built), old(table.items));
            out == h.outcome && table.items == h.table
  {
    if pathId.Failure? {
      return Returned(Failed(pathId.error));
    }
    var id := pathId.value;
    match built
    case Failure(f) => return Returned(Failed(f));
    case Success(u) =>
      if u.values == map[] {
        return Returned(BuildResponse(400, Message(NothingToUpdateMessage)));
      }
      var ok := table.UpdateItem(id, u.expression, u.values, NamesArgument(u.names));
      if !ok {
        return Returned(Failed(StoreRejected));
      }
      return Returned(BuildResponse(200, Message(UpdatedMessage)));
  }

  /** `DELETE /tasks/{id}`: delete the item, whether or not it exists. */
  method DeleteRoute(table: TaskTable, ev: Event) returns (out: Outcome)
    modifies table
    ensures var h := Perform(DeletePlan(PathId(ev.pathParameters)), old(table.items));
            out == h.outcome && table.items == h.table
  {
    match PathId(ev.pathParameters)
    case Failure(f) => return Returned(Failed(f));
    case Success(id) =>
      var ok := table.DeleteItem(id);
      if !ok {
        return Returned(Failed(StoreRejected));
      }
      return Returned(BuildResponse(200, Message(DeletedMessage)));
  }
}
