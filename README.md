# Task API request handler, modelled in Dafny

`trabalho.py` is an AWS Lambda function that serves a small task API over HTTP.
It stores tasks in a DynamoDB table `Tasks`, keyed by `task_id`, and has five routes:

- `POST /tasks` creates a task from the JSON body. It has a fresh uuid, the body's `titulo`, `descricao` and `data`, and a `created_at` timestamp.
- `GET /tasks` lists the tasks, optionally filtered by a `date` query parameter.
- `GET /tasks/{id}` returns one task, or 404.
- `PUT /tasks/{id}` overwrites the fields the body mentions. It builds a DynamoDB update expression such as `set #t = :t, descricao = :d`, with its value and name maps.
- `DELETE /tasks/{id}` removes a task.

Any other route key gets 400 `Rota nao suportada`. An exception inside the request's `try` becomes 500 `{'error': ...}`. `build_response` wraps every answer with the header `Content-Type: application/json`.

The model has seven modules:

- `Wrappers`: `Option` and `Result`.
- `Values`: the parsed JSON body. It also models Python's `key in v`, `v[key]` and `v.get(key)` on every kind of value, each with the exception it raises (`Fault`).
- `Strings`: joining, `rstrip` and substring tests on strings.
- `Store`: the table as a map from `task_id` to record, and the five calls the handler makes (`Command`).
  - `Accepts` says when the table client accepts a call. `Apply` gives the table afterwards.
  - `Assignments` is the table's reading of an update expression together with its two maps.
  - `TaskTable` is the table object whose methods the handler calls.
- `UpdateBuilder`: the PUT branch's update builder.
  - `BuildUpdate` is imperative, as in the source. It grows the expression and fills the two maps one `if 'x' in body` block at a time, then strips the trailing `", "`.
  - It is proved equal to the reference function `UpdateSpec`.
  - The lemmas state what the expression and maps hold, and that the table reads back exactly the body's fields.
- `Router`: `lambda_handler` and `build_response`.
  - `Handle` is the whole invocation as a function: its outcome, the calls made on the table, and the table afterwards.
  - `LambdaHandler` is the if/elif chain that runs on a `TaskTable`; one method per route carries out the branches. It is proved to agree with `Handle`.
- `RouterProperties`: what each route does, stated about `Handle`, and what two invocations in a row do.

Two points where the model follows what the code does rather than what its shape suggests:

- The `except` clause on lines 125-127 suggests that every failure becomes a 500. But `event['requestContext']['http']['method']` is read on line 25, before the `try`. A request without it ends the invocation with an exception (`Outcome.Unhandled`), not a 500 response.
- `PUT` on an id that does not exist creates an item holding that key and the given fields. DynamoDB's `update_item` behaves that way, and the handler does not check first (`Store.UpdateBase`).

## Model

| member | source | states |
|---|---|---|
| Values.Contains | trabalho.py:88 | `key in body` raises TypeError exactly on None, bool and int. On a dict it is a key test, on a list an element test, on a str a substring test |
| Values.ContainsSubstring | trabalho.py:88 | on a str body, `key in body` holds exactly when key occurs at some position of the string |
| Values.Subscript | trabalho.py:90 | `body[key]` succeeds exactly on a dict holding key and gives its value. A str or list raises TypeError |
| Values.GetOrNull | trabalho.py:44-46 | `body.get(key)` on a dict gives the value or None when absent. Any other value raises AttributeError |
| Store.Lookup | trabalho.py:73-74 | the lookup finds a record exactly when the key is stored, and gives that record |
| Store.ScanResult | trabalho.py:60-67 | a record is in the scan result exactly when it is stored under some key and matches the filter |
| Store.Apply | trabalho.py:50 | put and update add their key and delete removes its key; get and scan change nothing; every other stored record is unchanged |
| Store.ApplyKeepsWellFormed | trabalho.py:42-50 | every accepted call keeps each record stored under its own `task_id` |
| Store.ParseJoined | trabalho.py:108-110 | the table's reading of well-formed clauses joined by ", " gives back the same clauses |
| Store.TaskTable.constructor | trabalho.py:11 | the table object starts with the given contents |
| Store.TaskTable.PutItem | trabalho.py:50 | `put_item` succeeds exactly when the item has a non-empty string `task_id`, and then stores it under that key; otherwise the table is unchanged |
| Store.TaskTable.GetItem | trabalho.py:73 | `get_item` succeeds exactly for a non-empty string key and returns the record stored under it, if any |
| Store.TaskTable.Scan | trabalho.py:60-65 | `scan` returns exactly the stored records that match the date filter |
| Store.TaskTable.UpdateItem | trabalho.py:108-113 | `update_item` succeeds exactly when the table accepts the call; then it writes the assigned attributes over the item (creating it when absent) |
| Store.TaskTable.DeleteItem | trabalho.py:119 | `delete_item` succeeds exactly for a non-empty string key, and then removes that key whether or not it was present |
| UpdateBuilder.MentionedMember | trabalho.py:88-97 | the fields the builder takes up are exactly those for which `name in body` holds |
| UpdateBuilder.AddField | trabalho.py:88-100 | one `if 'x' in body` block: it fails when `in` raises or, on a str or list, when `body['x']` raises. Otherwise it appends the field's clause and map entries exactly when the field is present |
| UpdateBuilder.BuildUpdate | trabalho.py:84-103 | the builder, step by step, yields exactly the reference update `UpdateSpec(body)` or its exception |
| UpdateBuilder.NotIterableSpec | trabalho.py:88 | a body on which `in` raises makes the whole build fail with that TypeError |
| UpdateBuilder.BadSubscriptSpec | trabalho.py:90 | a str or list body holding a field name makes the build fail at the subscript |
| UpdateBuilder.StrippedExpression | trabalho.py:103 | `rstrip(', ')` removes exactly the final ", " (or the space after a lone "set") |
| UpdateBuilder.MentionedDistinct | trabalho.py:88-100 | no field is taken up twice |
| UpdateBuilder.MentionedFields | trabalho.py:88-100 | the fields are taken up in the fixed order `titulo`, `descricao`, `data`, each exactly when present |
| UpdateBuilder.MentionedKeys | trabalho.py:88-100 | for a dict body, a field is taken up exactly when its name is a key of the body |
| UpdateBuilder.UpdateMaps | trabalho.py:85-100 | `:t`/`:d`/`:dt` are bound exactly for the present fields, to the body's values even when null. `#t`→`titulo` and `#dt`→`data` appear exactly when those fields are present, and no entry names `descricao`. The value map is empty exactly when none of the three fields is present |
| UpdateBuilder.UpdateExpressionText | trabalho.py:84-103 | the expression is "set " followed by `#t = :t`, `descricao = :d`, `#dt = :dt` for the present fields, in that order, joined by ", " with no trailing separator |
| UpdateBuilder.AssignmentsOfFields | trabalho.py:108-113 | the table accepts the built expression and maps, and reads them as setting each taken-up field to its body value |
| UpdateBuilder.UpdateRoundTrip | trabalho.py:84-113 | for a dict body with at least one field, the table reads the built update as setting exactly the body's `titulo`/`descricao`/`data` to their values |
| Router.LambdaHandler | trabalho.py:20-127 | the handler's outcome and the table afterwards are those of `Handle` |
| Router.CreateRoute | trabalho.py:38-51 | the POST branch ends as its plan says: the exception of `body.get`, a rejected put, or the stored item and 201 |
| Router.ListRoute | trabalho.py:54-68 | the list branch answers 200 with the scan for the query's date filter and leaves the table unchanged |
| Router.FetchRoute | trabalho.py:71-77 | the get branch ends as its plan says: the exception of `pathParameters.get`, a rejected get, 200 with the item, or 404 |
| Router.UpdateRoute | trabalho.py:80-115 | the PUT branch ends as the update plan for the id lookup and the reference update says |
| Router.UpdateWith | trabalho.py:105-115 | once the update is built: its exception, 400 for an empty update, or the update call and 200 |
| Router.DeleteRoute | trabalho.py:117-120 | the delete branch ends as its plan says: the exception of `pathParameters.get`, a rejected delete, or the removal and 200 |
| RouterProperties.RouteKeys | trabalho.py:38-123 | each served route is selected by exactly its own route key |
| RouterProperties.UnhandledIff | trabalho.py:25 | the invocation ends in an exception exactly when the request has no `requestContext.http.method`, and then makes no call |
| RouterProperties.ResponsesWellBuilt | trabalho.py:129-136 | every response has the JSON content type and a status of 200, 201, 400, 404 or 500 |
| RouterProperties.CallsAndTable | trabalho.py:36-127 | at most one call is made. The table changes only through an accepted call, which also decides the response. A rejected call leaves the table unchanged and gives 500 |
| RouterProperties.KeepsWellFormed | trabalho.py:36-127 | an invocation keeps every item stored under its own `task_id` |
| RouterProperties.UnsupportedIff | trabalho.py:122-123 | 400 `Rota nao suportada` comes exactly from a route key other than the five, and then no call is made |
| RouterProperties.CreateStores | trabalho.py:39-51 | POST with a dict body answers 201 with `id` equal to the stored `task_id`. The stored record has exactly the keys `task_id`, `titulo`, `descricao`, `data`, `created_at`, with the body's values or None. Nothing else changes |
| RouterProperties.CreateNeedsObject | trabalho.py:44 | POST with a body that is not a dict answers 500 with the AttributeError of `.get` and makes no call |
| RouterProperties.CreateWithoutBody | trabalho.py:29-44 | POST without a body answers 500 with `'NoneType' object has no attribute 'get'` |
| RouterProperties.CreateMalformed | trabalho.py:31-34 | a body that is not JSON is read as `{}`, so POST stores a record with three null fields |
| RouterProperties.ListScans | trabalho.py:54-68 | `GET /tasks` answers 200 with exactly the scanned items for the date filter, makes one scan and leaves the table unchanged |
| RouterProperties.DateFilterIff | trabalho.py:56-58 | the filter is used exactly when the query parameters hold a non-empty `date`, and it is that date |
| RouterProperties.ScanFilters | trabalho.py:60-65 | without a filter the scan returns every stored record; with one, exactly those whose `data` is the date |
| RouterProperties.FetchFinds | trabalho.py:71-77 | `GET /tasks/{id}` answers 200 with the stored record when the id is stored, otherwise 404 `Tarefa nao encontrada`, and changes nothing |
| RouterProperties.DeleteRemoves | trabalho.py:117-120 | `DELETE /tasks/{id}` answers 200 `Tarefa deletada` and the table loses exactly that key, whether or not it was present |
| RouterProperties.MissingIdRejected | trabalho.py:72-73 | a GET or DELETE without `id` is rejected by the table: 500, table unchanged |
| RouterProperties.NullPathParameters | trabalho.py:26 | a null `pathParameters` makes every id route answer 500 with `'NoneType' object has no attribute 'get'` before any call |
| RouterProperties.UpdateNothingIff | trabalho.py:105-106 | with a dict body, 400 `Nenhum campo para atualizar` comes exactly when none of the three fields is present, and then the table is not called |
| RouterProperties.UpdateApplies | trabalho.py:108-115 | PUT with a key and some field makes exactly one update call and answers 200. The item becomes the old one (or a new one holding only its key) with exactly the body's fields overwritten. No other item changes |
| RouterProperties.NamesOmitted | trabalho.py:112 | the names map is passed as None exactly when neither `titulo` nor `data` is present |
| RouterProperties.UpdateNonObject | trabalho.py:88-106 | a body that is not a dict never reaches the table. None, int and bool raise TypeError at `in`. A str or list holding a field name raises TypeError at the subscript. Any other such body gives the 400 |
| RouterProperties.DescricaoOnlyRejected | trabalho.py:108-113 | as written, a PUT that sets only `descricao` passes `ExpressionAttributeNames=None`. A client that validates its parameters refuses that call, so the handler answers 500 and the item is unchanged; with the argument omitted the same request answers 200 |
| RouterProperties.UpdateWithoutBody | trabalho.py:88 | PUT without a body answers 500 with `argument of type 'NoneType' is not iterable` |
| RouterProperties.UpdateMissingId | trabalho.py:81-113 | PUT without `id` but with fields is rejected by the table: 500, table unchanged |
| RouterProperties.CreateThenFetch | trabalho.py:38-77 | a task just created is returned by `GET /tasks/{id}` with its new id |
| RouterProperties.DeleteThenFetch | trabalho.py:71-120 | a task just deleted is answered with 404 |
| RouterProperties.UpdateThenFetch | trabalho.py:71-115 | after an update, the task returned holds the body's new field values |

## Left out

- The boto3 client and DynamoDB (trabalho.py:2, 6, 9-11) are replaced by `Store`:
  - the table is a map from `task_id` to record;
  - `Store.Accepts` is the client raising or not;
  - `Store.Apply` is the effect of a call.
- What the table rejects is an abstraction, not DynamoDB's full rules:
  - a key must be a non-empty string;
  - an update expression must parse;
  - it must use exactly the given placeholders and aliases;
  - a given names map must not be empty;
  - it must not set the key.
- DynamoDB's reserved-word check is not modelled. The handler writes `titulo` and `data` through aliases, so the check does not bear on it.
- Scans return a set: DynamoDB gives no order. Pagination of large scans (the 1 MB page limit) is not modelled; the handler reads only the first page.
- RouterProperties.UpdateApplies: promises 200 and the written item for every PUT with a key and a field, because `Handle` reads `ExpressionAttributeNames=None` (line 112) as the argument left out. Line 112 always passes the keyword, and the real client refuses `None` for a map parameter, so a PUT whose body holds only `descricao` raises there and answers 500. `HandleAsWritten` models that client and `RouterProperties.DescricaoOnlyRejected` exhibits the 500 (see Findings). The same holds for `RouterProperties.UpdateThenFetch`.
- `uuid.uuid4()` and `datetime.now().isoformat()` (lines 39-40) are the parameters `taskId` and `now`.
- `json.loads` (line 32) is the parameter `decode`, which gives None when parsing fails.
- `json.dumps` (line 135) and `DecimalEncoder` (lines 14-18) are left out. Response bodies are the abstract `Payload`, and JSON numbers are integers, so floats and Decimals are not modelled. So is the exception `json.dumps` would raise on a value it cannot serialise inside `build_response`.
- `print` (lines 21, 126) is left out. So is the exception `json.dumps(event)` on line 21 could raise.
- Exception messages are the `Fault` kinds, not the exact text of `str(e)`.
- The event is always a record with the fields the handler reads. An event that is not a dict, or a non-string `routeKey` or parameter value, is not modelled. The HTTP method's value is never used by the code; only its presence matters.
- Concurrent invocations and the Lambda runtime are not modelled.

## Findings

| source | as written | input that shows it | evidently intended | confidence | as-written member | corrected member |
|---|---|---|---|---|---|---|
| trabalho.py:112 | the `update_item` call always passes `ExpressionAttributeNames`, and passes `None` when no alias is used | `PUT /tasks/{id}` with id `a` and body `{"descricao": "x"}`: the names map is empty, and the client refuses `None` for a map parameter, so the handler answers 500 | leave `ExpressionAttributeNames` out of the call when no alias is used; the update of `descricao` then succeeds with 200 | medium: rests on the client library's parameter validation, not executed | RouterProperties.DescricaoOnlyRejected | RouterProperties.UpdateApplies |
