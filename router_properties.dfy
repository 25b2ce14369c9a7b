/**
 * What one invocation of the handler does, route by route, stated about `Handle`, and
 * what two invocations in a row do. `LambdaHandler` agrees with `Handle`, so each of
 * these holds of the handler as it runs.
 */
module RouterProperties {
  import opened Wrappers
  import opened Values
  import opened Strings
  import opened Store
  import opened UpdateBuilder
  import opened Router

  // ----- routing -----

  /** Each served route is selected by its own route key, and only by it. */
  lemma RouteKeys(r: Route, routeKey: Option<string>)
    ensures r != Unsupported ==> RouteOf(Some(KeyOf(r))) == r
    ensures RouteOf(routeKey) != Unsupported ==> routeKey == Some(KeyOf(RouteOf(routeKey)))
  {
  }

  /** The invocation ends in an exception exactly when the request has no HTTP method;
      it then touches nothing. */
  lemma UnhandledIff(ev: Event, decode: string -> Option<Value>, taskId: string, now: string, t: Table)
    ensures var h := Handle(ev, decode, taskId, now, t);
            (h.outcome == Unhandled <==> ev.httpMethod.None?)
            && (h.outcome == Unhandled ==> h.calls == [] && h.table == t)
  {
    var h := Handle(ev, decode, taskId, now, t);
    if ev.httpMethod.Some? {
      var step := Plan(RouteOf(ev.routeKey), ev, ParseBody(ev.body, decode), taskId, now);
      PerformReturns(step, t);
    }
  }

  lemma PerformReturns(step: Step, t: Table)
    ensures Perform(step, t).outcome.Returned?
  {
  }

  // ----- responses -----

  /** A response as `build_response` makes it, with one of the statuses the handler uses. */
  predicate WellBuilt(r: Response)
  {
    r.headers.Keys == {"Content-Type"} && r.headers["Content-Type"] == "application/json"
    && r.statusCode in {200, 201, 400, 404, 500}
  }

  /** Every response carries the JSON content type and a status of 200, 201, 400, 404 or 500. */
  lemma ResponsesWellBuilt(ev: Event, decode: string -> Option<Value>, taskId: string, now: string, t: Table)
    ensures var h := Handle(ev, decode, taskId, now, t);
            h.outcome.Returned? ==> WellBuilt(h.outcome.response)
  {
    if ev.httpMethod.Some? {
      var step := Plan(RouteOf(ev.routeKey), ev, ParseBody(ev.body, decode), taskId, now);
      PlanWellBuilt(RouteOf(ev.routeKey), ev, ParseBody(ev.body, decode), taskId, now);
      PerformWellBuilt(step, t);
    }
  }

  lemma PlanWellBuilt(route: Route, ev: Event, body: Value, taskId: string, now: string)
    ensures var step := Plan(route, ev, body, taskId, now);
            step.Reply? ==> WellBuilt(step.response)
  {
    match route
    case UpdateTask =>
      var p, b := PathId(ev.pathParameters), UpdateSpec(body);
      assert Plan(route, ev, body, taskId, now) == UpdatePlan(p, b);
      UpdatePlanWellBuilt(p, b);
    case _ =>
  }

  lemma UpdatePlanWellBuilt(p: Result<Value, Fault>, b: Result<Update, Fault>)
    ensures UpdatePlan(p, b).Reply? ==> WellBuilt(UpdatePlan(p, b).response)
  {
  }

  lemma PerformWellBuilt(step: Step, t: Table)
    requires step.Reply? ==> WellBuilt(step.response)
    ensures Perform(step, t).outcome.Returned? && WellBuilt(Perform(step, t).outcome.response)
  {
  }

  // ----- calls and the table -----

  /** At most one call is made; the table changes only by an accepted call, which also
      decides the response; a rejected call leaves the table alone and answers 500. */
  lemma CallsAndTable(ev: Event, decode: string -> Option<Value>, taskId: string, now: string, t: Table)
    ensures var h := Handle(ev, decode, taskId, now, t);
            && |h.calls| <= 1
            && (h.calls == [] ==> h.table == t)
            && (|h.calls| == 1 && Accepts(h.calls[0]) ==>
                  h.table == Apply(t, h.calls[0]) && h.outcome == Returned(Respond(h.calls[0], t)))
            && (|h.calls| == 1 && !Accepts(h.calls[0]) ==>
                  h.table == t && h.outcome == Returned(Failed(StoreRejected)))
  {
    if ev.httpMethod.Some? {
      var step := Plan(RouteOf(ev.routeKey), ev, ParseBody(ev.body, decode), taskId, now);
      PerformCalls(step, t);
    }
  }

  lemma PerformCalls(step: Step, t: Table)
    ensures var h := Perform(step, t);
            && |h.calls| <= 1
            && (h.calls == [] ==> h.table == t)
            && (|h.calls| == 1 && Accepts(h.calls[0]) ==>
                  h.table == Apply(t, h.calls[0]) && h.outcome == Returned(Respond(h.calls[0], t)))
            && (|h.calls| == 1 && !Accepts(h.calls[0]) ==>
                  h.table == t && h.outcome == Returned(Failed(StoreRejected)))
  {
  }

  /** Every item stays stored under its own `task_id`. */
  lemma KeepsWellFormed(ev: Event, decode: string -> Option<Value>, taskId: string, now: string, t: Table)
    requires WellFormed(t)
    ensures WellFormed(Handle(ev, decode, taskId, now, t).table)
  {
    var h := Handle(ev, decode, taskId, now, t);
    CallsAndTable(ev, decode, taskId, now, t);
    if |h.calls| == 1 && Accepts(h.calls[0]) {
      ApplyKeepsWellFormed(t, h.calls[0]);
    }
  }

  // ----- route by route -----

  /** The response `Rota nao suportada` comes exactly from an unsupported route key, which
      makes no call. */
  lemma UnsupportedIff(ev: Event, decode: string -> Option<Value>, taskId: string, now: string, t: Table)
    requires ev.httpMethod.Some?
    ensures var h := Handle(ev, decode, taskId, now, t);
            ((h.outcome == Returned(BuildResponse(400, Message(UnsupportedMessage))))
             <==> RouteOf(ev.routeKey) == Unsupported)
            && (RouteOf(ev.routeKey) == Unsupported ==> h.calls == [] && h.table == t)
  {
    var route := RouteOf(ev.routeKey);
    var body := ParseBody(ev.body, decode);
    var step := Plan(route, ev, body, taskId, now);
    if route == UpdateTask {
      UpdatePlanMessages(PathId(ev.pathParameters), UpdateSpec(body));
    }
    PerformMessages(step, t);
  }

  /** The only 400 the update route gives is `Nenhum campo para atualizar`. */
  lemma UpdatePlanMessages(p: Result<Value, Fault>, b: Result<Update, Fault>)
    ensures UpdatePlan(p, b).Reply? && UpdatePlan(p, b).response.statusCode == 400
            ==> UpdatePlan(p, b).response.body == Message(NothingToUpdateMessage)
  {
  }

  /** A call never answers 400. */
  lemma PerformMessages(step: Step, t: Table)
    ensures step.Issue? ==> Perform(step, t).outcome.response.statusCode != 400
    ensures step.Reply? ==> Perform(step, t).outcome == Returned(step.response)
  {
  }

  /** `POST /tasks` with an object body stores a record of exactly five attributes under
      taskId and answers 201 with the id. */
  lemma CreateStores(ev: Event, decode: string -> Option<Value>, taskId: string, now: string, t: Table, m: map<string, Value>)
    requires ev.httpMethod.Some? && RouteOf(ev.routeKey) == CreateTask
    requires ParseBody(ev.body, decode) == Obj(m) && taskId != ""
    ensures var h := Handle(ev, decode, taskId, now, t);
            && h.outcome == Returned(BuildResponse(201, Created(CreatedMessage, taskId)))
            && |h.calls| == 1 && h.calls[0].PutItem?
            && h.table == t[taskId := h.calls[0].item]
            && var r := h.calls[0].item;
               && r.Keys == {KeyAttribute, "titulo", "descricao", "data", "created_at"}
               && r[KeyAttribute] == Str(taskId) && r["created_at"] == Str(now)
               && (forall k :: k in FieldNames ==> r[k] == if k in m then m[k] else Null)
  {
    var r := NewItem(Obj(m), taskId, now).value;
    assert r[KeyAttribute] == Str(taskId);
  }

  /** `POST /tasks` whose body is not an object answers 500 with the `.get` exception. */
  lemma CreateNeedsObject(ev: Event, decode: string -> Option<Value>, taskId: string, now: string, t: Table)
    requires ev.httpMethod.Some? && RouteOf(ev.routeKey) == CreateTask
    requires !ParseBody(ev.body, decode).Obj?
    ensures var h := Handle(ev, decode, taskId, now, t);
            && h.outcome == Returned(Failed(NoAttribute(TypeName(ParseBody(ev.body, decode)), "get")))
            && h.calls == [] && h.table == t
  {
  }

  /** `POST /tasks` without a body fails on `None.get`. */
  lemma CreateWithoutBody(ev: Event, decode: string -> Option<Value>, taskId: string, now: string, t: Table)
    requires ev.httpMethod.Some? && RouteOf(ev.routeKey) == CreateTask
    requires ev.body.None? || ev.body == Some("")
    ensures Handle(ev, decode, taskId, now, t).outcome == Returned(Failed(NoAttribute("NoneType", "get")))
  {
    CreateNeedsObject(ev, decode, taskId, now, t);
  }

  /** A body that is not valid JSON is read as `{}`: `POST /tasks` then stores a record
      whose three fields are null. */
  lemma CreateMalformed(ev: Event, decode: string -> Option<Value>, taskId: string, now: string, t: Table)
    requires ev.httpMethod.Some? && RouteOf(ev.routeKey) == CreateTask && taskId != ""
    requires ev.body.Some? && ev.body.value != "" && decode(ev.body.value).None?
    ensures var h := Handle(ev, decode, taskId, now, t);
            && h.outcome == Returned(BuildResponse(201, Created(CreatedMessage, taskId)))
            && taskId in h.table
            && h.table[taskId]["titulo"] == Null && h.table[taskId]["descricao"] == Null
            && h.table[taskId]["data"] == Null
  {
    CreateStores(ev, decode, taskId, now, t, map[]);
    assert "titulo" in FieldNames && "descricao" in FieldNames && "data" in FieldNames;
  }

  /** `GET /tasks` answers 200 with the scanned items, filtered by date when one is given. */
  lemma ListScans(ev: Event, decode: string -> Option<Value>, taskId: string, now: string, t: Table)
    requires ev.httpMethod.Some? && RouteOf(ev.routeKey) == ListTasks
    ensures var h := Handle(ev, decode, taskId, now, t);
            var f := DateFilter(ev.queryStringParameters);
            && h.outcome == Returned(BuildResponse(200, Items(ScanResult(t, f))))
            && h.calls == [Command.Scan(f)] && h.table == t
  {
  }

  /** The date filter is used exactly when the query has a non-empty `date`. */
  lemma DateFilterIff(q: Params)
    ensures DateFilter(q).Some? <==> q.Given? && "date" in q.entries && q.entries["date"] != ""
    ensures DateFilter(q).Some? ==> DateFilter(q).value == q.entries["date"]
  {
    if q.Given? && "date" in q.entries {
      assert q.entries != map[];
    }
  }

  /** Without a filter a scan returns every item; with one, the items whose `data` is the date. */
  lemma ScanFilters(t: Table, dateFilter: Option<string>)
    ensures dateFilter.None? ==> ScanResult(t, dateFilter) == t.Values
    ensures dateFilter.Some? ==>
              ScanResult(t, dateFilter)
              == set k | k in t && DateAttribute in t[k] && t[k][DateAttribute] == Str(dateFilter.value) :: t[k]
  {
    if dateFilter.None? {
      forall r | r in t.Values ensures r in ScanResult(t, dateFilter) {
        var k :| k in t && t[k] == r;
      }
    }
  }

  /** `GET /tasks/{id}` with a key answers 200 with its item, or 404 when there is none. */
  lemma FetchFinds(ev: Event, decode: string -> Option<Value>, taskId: string, now: string, t: Table, key: string)
    requires ev.httpMethod.Some? && RouteOf(ev.routeKey) == FetchTask
    requires PathId(ev.pathParameters) == Success(Str(key)) && key != ""
    ensures var h := Handle(ev, decode, taskId, now, t);
            && h.outcome == Returned(if key in t then BuildResponse(200, Item(t[key]))
                                     else BuildResponse(404, Message(NotFoundMessage)))
            && h.calls == [Command.GetItem(Str(key))] && h.table == t
  {
  }

  /** `DELETE /tasks/{id}` with a key removes that item, present or not, and nothing else. */
  lemma DeleteRemoves(ev: Event, decode: string -> Option<Value>, taskId: string, now: string, t: Table, key: string)
    requires ev.httpMethod.Some? && RouteOf(ev.routeKey) == DeleteTask
    requires PathId(ev.pathParameters) == Success(Str(key)) && key != ""
    ensures var h := Handle(ev, decode, taskId, now, t);
            && h.outcome == Returned(BuildResponse(200, Message(DeletedMessage)))
            && h.calls == [Command.DeleteItem(Str(key))] && h.table == t - {key}
  {
  }

  /** Without an `id` the id route's call is rejected: 500, and the table is unchanged. */
  lemma MissingIdRejected(ev: Event, decode: string -> Option<Value>, taskId: string, now: string, t: Table)
    requires ev.httpMethod.Some?
    requires RouteOf(ev.routeKey) == FetchTask || RouteOf(ev.routeKey) == DeleteTask
    requires PathId(ev.pathParameters) == Success(Null)
    ensures var h := Handle(ev, decode, taskId, now, t);
            h.outcome == Returned(Failed(StoreRejected)) && |h.calls| == 1 && h.table == t
  {
  }

  /** A null `pathParameters` makes every id route fail on `None.get`, before any call. */
  lemma NullPathParameters(ev: Event, decode: string -> Option<Value>, taskId: string, now: string, t: Table)
    requires ev.httpMethod.Some? && ev.pathParameters == NullParams
    requires RouteOf(ev.routeKey) in {FetchTask, UpdateTask, DeleteTask}
    ensures var h := Handle(ev, decode, taskId, now, t);
            h.outcome == Returned(Failed(NoAttribute("NoneType", "get"))) && h.calls == [] && h.table == t
  {
  }

  // ----- the update route -----

  /** The update route is the update plan on the id lookup and the built update. */
  lemma HandleUpdate(ev: Event, decode: string -> Option<Value>, taskId: string, now: string, t: Table,
                     p: Result<Value, Fault>, b: Result<Update, Fault>)
    requires ev.httpMethod.Some? && RouteOf(ev.routeKey) == UpdateTask
    requires p == PathId(ev.pathParameters) && b == UpdateSpec(ParseBody(ev.body, decode))
    ensures var h := Handle(ev, decode, taskId, now, t);
            var g := Perform(UpdatePlan(p, b), t);
            h.outcome == g.outcome && h.calls == g.calls && h.table == g.table
  {
  }

  /** With an object body, `PUT /tasks/{id}` answers `Nenhum campo para atualizar` exactly
      when the body has none of the three fields, and then makes no call. */
  lemma UpdateNothingIff(ev: Event, decode: string -> Option<Value>, taskId: string, now: string, t: Table, m: map<string, Value>)
    requires ev.httpMethod.Some? && RouteOf(ev.routeKey) == UpdateTask
    requires PathId(ev.pathParameters).Success? && ParseBody(ev.body, decode) == Obj(m)
    ensures var h := Handle(ev, decode, taskId, now, t);
            var none := "titulo" !in m && "descricao" !in m && "data" !in m;
            ((h.outcome == Returned(BuildResponse(400, Message(NothingToUpdateMessage)))) <==> none)
            && (none ==> h.calls == [] && h.table == t)
  {
    var step := Plan(UpdateTask, ev, Obj(m), taskId, now);
    assert step == UpdatePlan(PathId(ev.pathParameters), UpdateSpec(Obj(m)));
    UpdateMaps(m);
    PerformMessages(step, t);
  }

  /** `PUT /tasks/{id}` with a key and at least one field issues one update call and answers
      200; the item ends up as before (or as a new item holding only its key) with exactly
      the body's fields overwritten, and no other item changes. */
  lemma UpdateApplies(ev: Event, decode: string -> Option<Value>, taskId: string, now: string, t: Table,
                      m: map<string, Value>, key: string)
    requires ev.httpMethod.Some? && RouteOf(ev.routeKey) == UpdateTask
    requires PathId(ev.pathParameters) == Success(Str(key)) && key != ""
    requires ParseBody(ev.body, decode) == Obj(m) && ("titulo" in m || "descricao" in m || "data" in m)
    ensures var h := Handle(ev, decode, taskId, now, t);
            var u := UpdateSpec(Obj(m)).value;
            && h.outcome == Returned(BuildResponse(200, Message(UpdatedMessage)))
            && h.calls == [Command.UpdateItem(Str(key), u.expression, u.values, NamesArgument(u.names))]
            && h.table == t[key := UpdateBase(t, key) + map k | k in m && k in FieldNames :: m[k]]
  {
    var b := UpdateSpec(Obj(m));
    HandleUpdate(ev, decode, taskId, now, t, PathId(ev.pathParameters), b);
    UpdateMaps(m);
    UpdateRoundTrip(m);
    UpdatePlanApplies(Str(key), b, t, map k | k in m && k in FieldNames :: m[k]);
  }

  /** A non-empty update whose expression the table reads as the assignments a: accepted
      for a key, rejected otherwise. */
  lemma UpdatePlanApplies(id: Value, b: Result<Update, Fault>, t: Table, a: map<string, Value>)
    requires b.Success? && b.value.values != map[]
    requires IsKey(id) ==> Assignments(b.value.expression, b.value.values, NamesArgument(b.value.names)) == Some(a)
    ensures var g := Perform(UpdatePlan(Success(id), b), t);
            var u := b.value;
            && g.calls == [Command.UpdateItem(id, u.expression, u.values, NamesArgument(u.names))]
            && (IsKey(id) ==> g.outcome == Returned(BuildResponse(200, Message(UpdatedMessage)))
                              && g.table == t[id.s := UpdateBase(t, id.s) + a])
            && (!IsKey(id) ==> g.outcome == Returned(Failed(StoreRejected)) && g.table == t)
  {
  }

  /** The names map is passed as None exactly when neither `#t` nor `#dt` is used. */
  lemma NamesOmitted(m: map<string, Value>)
    ensures UpdateSpec(Obj(m)).Success?
    ensures NamesArgument(UpdateSpec(Obj(m)).value.names).None? <==> "titulo" !in m && "data" !in m
  {
    UpdateMaps(m);
    var n := UpdateSpec(Obj(m)).value.names;
    if "titulo" in m {
      assert "#t" in n;
    } else if "data" in m {
      assert "#dt" in n;
    } else {
      assert n.Keys == {};
    }
  }

  /** As written, a `PUT` that sets only `descricao` passes `ExpressionAttributeNames=None`;
      a client that validates its parameters refuses it, so the handler answers 500 and the
      item stays as it was, where omitting the argument gives 200 and the update. */
  lemma DescricaoOnlyRejected(ev: Event, decode: string -> Option<Value>, taskId: string, now: string, t: Table,
                              m: map<string, Value>, key: string)
    requires ev.httpMethod.Some? && RouteOf(ev.routeKey) == UpdateTask
    requires PathId(ev.pathParameters) == Success(Str(key)) && key != ""
    requires ParseBody(ev.body, decode) == Obj(m) && "descricao" in m && "titulo" !in m && "data" !in m
    ensures var h := Handle(ev, decode, taskId, now, t);
            && |h.calls| == 1 && h.calls[0].UpdateItem? && h.calls[0].names.None?
            && h.outcome == Returned(BuildResponse(200, Message(UpdatedMessage)))
    ensures var w := HandleAsWritten(ev, decode, taskId, now, t);
            w.outcome == Returned(Failed(StoreRejected)) && w.table == t
  {
    UpdateApplies(ev, decode, taskId, now, t, m, key);
    NamesOmitted(m);
  }

  /** On a body that is not an object the update route never calls the table: None, a
      number or a bool cannot be searched; a str or list that holds one of the field names
      cannot be subscripted; any other gives an empty update. */
  lemma UpdateNonObject(ev: Event, decode: string -> Option<Value>, taskId: string, now: string, t: Table)
    requires ev.httpMethod.Some? && RouteOf(ev.routeKey) == UpdateTask
    requires PathId(ev.pathParameters).Success?
    requires !ParseBody(ev.body, decode).Obj?
    ensures var h := Handle(ev, decode, taskId, now, t);
            var body := ParseBody(ev.body, decode);
            var holds := Contains(body, "titulo") == Success(true) || Contains(body, "descricao") == Success(true)
                         || Contains(body, "data") == Success(true);
            && h.calls == [] && h.table == t
            && h.outcome == Returned(
                 if body.Null? || body.Bool? || body.Num? then Failed(NotIterable(TypeName(body)))
                 else if holds then Failed(BadSubscript(TypeName(body)))
                 else BuildResponse(400, Message(NothingToUpdateMessage)))
  {
    var body := ParseBody(ev.body, decode);
    var step := Plan(UpdateTask, ev, body, taskId, now);
    assert step == UpdatePlan(PathId(ev.pathParameters), UpdateSpec(body));
    MentionedFields(body);
  }

  /** `PUT /tasks/{id}` without a body fails on `'titulo' in None`. */
  lemma UpdateWithoutBody(ev: Event, decode: string -> Option<Value>, taskId: string, now: string, t: Table)
    requires ev.httpMethod.Some? && RouteOf(ev.routeKey) == UpdateTask
    requires PathId(ev.pathParameters).Success?
    requires ev.body.None? || ev.body == Some("")
    ensures var h := Handle(ev, decode, taskId, now, t);
            h.outcome == Returned(Failed(NotIterable("NoneType"))) && h.calls == [] && h.table == t
  {
    UpdateNonObject(ev, decode, taskId, now, t);
  }

  /** Without an `id`, an update with fields is rejected by the table: 500, table unchanged. */
  lemma UpdateMissingId(ev: Event, decode: string -> Option<Value>, taskId: string, now: string, t: Table, m: map<string, Value>)
    requires ev.httpMethod.Some? && RouteOf(ev.routeKey) == UpdateTask
    requires PathId(ev.pathParameters) == Success(Null)
    requires ParseBody(ev.body, decode) == Obj(m) && ("titulo" in m || "descricao" in m || "data" in m)
    ensures var h := Handle(ev, decode, taskId, now, t);
            h.outcome == Returned(Failed(StoreRejected)) && |h.calls| == 1 && h.table == t
  {
    var b := UpdateSpec(Obj(m));
    HandleUpdate(ev, decode, taskId, now, t, PathId(ev.pathParameters), b);
    UpdateMaps(m);
    UpdatePlanApplies(Null, b, t, map[]);
  }

  // ----- two invocations -----

  /** An item just created is found under its id. */
  lemma CreateThenFetch(create: Event, fetch: Event, decode: string -> Option<Value>, taskId: string, now: string,
                        t: Table, m: map<string, Value>, taskId2: string, now2: string)
    requires create.httpMethod.Some? && RouteOf(create.routeKey) == CreateTask
    requires ParseBody(create.body, decode) == Obj(m) && taskId != ""
    requires fetch.httpMethod.Some? && RouteOf(fetch.routeKey) == FetchTask
    requires PathId(fetch.pathParameters) == Success(Str(taskId))
    ensures var h1 := Handle(create, decode, taskId, now, t);
            var h2 := Handle(fetch, decode, taskId2, now2, h1.table);
            h2.outcome == Returned(BuildResponse(200, Item(h1.calls[0].item)))
  {
    var h1 := Handle(create, decode, taskId, now, t);
    CreateStores(create, decode, taskId, now, t, m);
    FetchFinds(fetch, decode, taskId2, now2, h1.table, taskId);
  }

  /** An item just deleted is no longer found. */
  lemma DeleteThenFetch(delete: Event, fetch: Event, decode: string -> Option<Value>, taskId: string, now: string,
                        t: Table, key: string)
    requires delete.httpMethod.Some? && RouteOf(delete.routeKey) == DeleteTask
    requires PathId(delete.pathParameters) == Success(Str(key)) && key != ""
    requires fetch.httpMethod.Some? && RouteOf(fetch.routeKey) == FetchTask
    requires PathId(fetch.pathParameters) == Success(Str(key))
    ensures var h1 := Handle(delete, decode, taskId, now, t);
            var h2 := Handle(fetch, decode, taskId, now, h1.table);
            h2.outcome == Returned(BuildResponse(404, Message(NotFoundMessage)))
  {
    var h1 := Handle(delete, decode, taskId, now, t);
    DeleteRemoves(delete, decode, taskId, now, t, key);
    FetchFinds(fetch, decode, taskId, now, h1.table, key);
  }

  /** After an update, the item found under the key holds the body's new fields. */
  lemma UpdateThenFetch(update: Event, fetch: Event, decode: string -> Option<Value>, taskId: string, now: string,
                        t: Table, m: map<string, Value>, key: string)
    requires update.httpMethod.Some? && RouteOf(update.routeKey) == UpdateTask
    requires PathId(update.pathParameters) == Success(Str(key)) && key != ""
    requires ParseBody(update.body, decode) == Obj(m) && ("titulo" in m || "descricao" in m || "data" in m)
    requires fetch.httpMethod.Some? && RouteOf(fetch.routeKey) == FetchTask
    requires PathId(fetch.pathParameters) == Success(Str(key))
    ensures var h1 := Handle(update, decode, taskId, now, t);
            var h2 := Handle(fetch, decode, taskId, now, h1.table);
            && h2.outcome.Returned? && h2.outcome.response.statusCode == 200
            && h2.outcome.response.body.Item?
            && var r := h2.outcome.response.body.record;
               forall k :: k in m && k in FieldNames ==> k in r && r[k] == m[k]
  {
    var h1 := Handle(update, decode, taskId, now, t);
    UpdateApplies(update, decode, taskId, now, t, m, key);
    FetchFinds(fetch, decode, taskId, now, h1.table, key);
  }
}
