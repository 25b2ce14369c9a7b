/**
 * The task table as the handler sees it: a map from `task_id` to a record, the five
 * calls the handler makes on it, and the table's reading of an update expression
 * "set <path> = <placeholder>, ...". `TaskTable` is the table object the handler
 * mutates; its methods have exactly the meaning of `Accepts` and `Apply`.
 */
module Store {
  import opened Wrappers
  import opened Values
  import opened Strings

  /** A stored item: attribute name to value. */
  type Record = map<string, Value>

  /** The table: `task_id` to item. */
  type Table = map<string, Record>

  const KeyAttribute := "task_id"
  const DateAttribute := "data"

  /** One call on the table client. */
  datatype Command =
    | PutItem(item: Record)
    | GetItem(key: Value)
    | Scan(dateFilter: Option<string>)
    | UpdateItem(key: Value, expression: string, values: map<string, Value>, names: Option<map<string, string>>)
    | DeleteItem(key: Value)

  /** A key value the table accepts: a non-empty string. */
  predicate IsKey(v: Value)
  {
    v.Str? && v.s != ""
  }

  /** Every item is stored under its own `task_id`. */
  ghost predicate WellFormed(t: Table)
  {
    forall k :: k in t ==> KeyAttribute in t[k] && t[k][KeyAttribute] == Str(k)
  }

  // ----- update expressions -----

  /** One assignment `path = placeholder` of an update expression. */
  datatype Clause = Clause(path: string, placeholder: string)

  /** A path or placeholder token: non-empty, without a space or a comma. */
  predicate IsToken(s: string)
  {
    s != [] && ' ' !in s && ',' !in s
  }

  predicate WellFormedClause(c: Clause)
  {
    IsToken(c.path) && IsToken(c.placeholder)
  }

  /** The text of a clause. */
  function Render(c: Clause): string
  {
    c.path + " = " + c.placeholder
  }

  function Renders(cs: seq<Clause>): (r: seq<string>)
    ensures |r| == |cs| && forall i :: 0 <= i < |cs| ==> r[i] == Render(cs[i])
  {
    seq(|cs|, i requires 0 <= i < |cs| => Render(cs[i]))
  }

  /** Reads one clause "path = placeholder". */
  function ParseClause(s: string): Option<Clause>
  {
    var path := TakeUntil(s, ' ');
    var rest := s[|path|..];
    if |rest| > 3 && rest[..3] == " = " && IsToken(path) && IsToken(rest[3..])
    then Some(Clause(path, rest[3..]))
    else None
  }

  /** Reads clauses separated by ", ". */
  function ParseClauses(s: string): Option<seq<Clause>>
    decreases |s|
  {
    var head := TakeUntil(s, ',');
    match ParseClause(head)
    case None => None
    case Some(c) =>
      if |head| == |s| then Some([c])
      else if |head| + 2 <= |s| && s[|head| + 1] == ' ' then
        match ParseClauses(s[|head| + 2..])
        case None => None
        case Some(cs) => Some([c] + cs)
      else None
  }

  /** A path starting with '#' is an alias resolved through the names map. */
  predicate IsAlias(path: string)
  {
    |path| > 0 && path[0] == '#'
  }

  /** The attribute a path denotes. */
  function AttributeOf(path: string, names: Option<map<string, string>>): Option<string>
  {
    if !IsAlias(path) then Some(path)
    else if names.Some? && path in names.value then Some(names.value[path])
    else None
  }

  function Placeholders(cs: seq<Clause>): set<string>
  {
    if cs == [] then {} else {cs[0].placeholder} + Placeholders(cs[1..])
  }

  function Aliases(cs: seq<Clause>): set<string>
  {
    if cs == [] then {} else (if IsAlias(cs[0].path) then {cs[0].path} else {}) + Aliases(cs[1..])
  }

  /** The attributes the clauses set, with their new values; None when a name or value is
      missing or two clauses set the same attribute. */
  function Resolve(cs: seq<Clause>, values: map<string, Value>, names: Option<map<string, string>>): Option<map<string, Value>>
  {
    if cs == [] then Some(map[])
    else
      match (AttributeOf(cs[0].path, names), Resolve(cs[1..], values, names))
      case (Some(a), Some(rest)) =>
        if cs[0].placeholder in values && a !in rest then Some(rest[a := values[cs[0].placeholder]]) else None
      case _ => None
  }

  /** The table's reading of an update expression: the attributes it sets and their values,
      or None when the table rejects the call (syntax, an unused or missing value or name,
      an empty names map, overlapping paths, or an attempt to set the key). */
  function Assignments(expression: string, values: map<string, Value>, names: Option<map<string, string>>): Option<map<string, Value>>
  {
    if !("set " <= expression) then None
    else
      match ParseClauses(expression[4..])
      case None => None
      case Some(cs) =>
        if values.Keys != Placeholders(cs) then None
        else if names.Some? && (names.value == map[] || names.value.Keys != Aliases(cs)) then None
        else
          match Resolve(cs, values, names)
          case None => None
          case Some(a) => if KeyAttribute in a then None else Some(a)
  }

  lemma {:induction false} ParseRendered(c: Clause)
    requires WellFormedClause(c)
    ensures ParseClause(Render(c)) == Some(c)
  {
    var s := Render(c);
    assert s == c.path + [' '] + ("= " + c.placeholder);
    TakeUntilStops(c.path, ' ', "= " + c.placeholder);
    assert s[|c.path|..] == " = " + c.placeholder;
    assert (" = " + c.placeholder)[3..] == c.placeholder;
  }

  /** Parsing the ", "-separated rendering of well-formed clauses gives the clauses back. */
  lemma {:induction false} ParseJoined(cs: seq<Clause>)
    requires |cs| > 0
    requires forall i :: 0 <= i < |cs| ==> WellFormedClause(cs[i])
    ensures ParseClauses(Join(Renders(cs), ", ")) == Some(cs)
  {
    var c := cs[0];
    if |cs| == 1 {
      assert Join(Renders(cs), ", ") == Render(c);
      ParseSingle(c);
      assert cs == [c];
    } else {
      var tail := Join(Renders(cs[1..]), ", ");
      assert Renders(cs)[1..] == Renders(cs[1..]);
      assert Join(Renders(cs), ", ") == Render(c) + ", " + tail;
      ParseJoined(cs[1..]);
      ParseCons(c, tail, cs[1..]);
      assert [c] + cs[1..] == cs;
    }
  }

  /** A single rendered clause parses back. */
  lemma ParseSingle(c: Clause)
    requires WellFormedClause(c)
    ensures ParseClauses(Render(c)) == Some([c])
  {
    assert ',' !in Render(c);
    ParseRendered(c);
    TakeUntilAll(Render(c), ',');
  }

  /** A rendered clause, ", " and parseable clauses parse as that clause followed by them. */
  lemma ParseCons(c: Clause, tail: string, rest: seq<Clause>)
    requires WellFormedClause(c) && ParseClauses(tail) == Some(rest)
    ensures ParseClauses(Render(c) + ", " + tail) == Some([c] + rest)
  {
    var head := Render(c);
    var s := head + ", " + tail;
    assert ',' !in head;
    ParseRendered(c);
    assert s == head + [','] + (" " + tail);
    TakeUntilStops(head, ',', " " + tail);
    assert s[|head| + 2..] == tail;
  }

  // ----- the five calls -----

  /** The table client accepts the call (otherwise it raises). */
  predicate Accepts(c: Command)
  {
    match c
    case PutItem(item) => KeyAttribute in item && IsKey(item[KeyAttribute])
    case GetItem(key) => IsKey(key)
    case Scan(_) => true
    case UpdateItem(key, e, vs, ns) => IsKey(key) && Assignments(e, vs, ns).Some?
    case DeleteItem(key) => IsKey(key)
  }

  /** The client's own check of its parameters before it sends a call: a map parameter
      must be a dict, so an update whose names argument is None is refused. */
  predicate PassesValidation(c: Command)
  {
    !(c.UpdateItem? && c.names.None?)
  }

  /** The item under key, if any. */
  function Lookup(t: Table, key: string): (r: Option<Record>)
    ensures r.Some? <==> key in t
    ensures r.Some? ==> r.value == t[key]
  {
    if key in t then Some(t[key]) else None
  }

  /** A scan filter on `data`: the item's `data` equals the date; no filter keeps every item. */
  predicate Matches(r: Record, dateFilter: Option<string>)
  {
    dateFilter.None? || (DateAttribute in r && r[DateAttribute] == Str(dateFilter.value))
  }

  /** The items a scan returns, as a set: a scan guarantees no order. */
  function ScanResult(t: Table, dateFilter: Option<string>): (rs: set<Record>)
    ensures forall r :: r in rs <==> exists k :: k in t && t[k] == r && Matches(r, dateFilter)
  {
    set k | k in t && Matches(t[k], dateFilter) :: t[k]
  }

  /** The item an update starts from: the stored one, or a new one holding only its key. */
  function UpdateBase(t: Table, key: string): Record
  {
    if key in t then t[key] else map[KeyAttribute := Str(key)]
  }

  /** The table after an accepted call. */
  function Apply(t: Table, c: Command): (t': Table)
    requires Accepts(c)
    ensures !c.PutItem? && !c.UpdateItem? && !c.DeleteItem? ==> t' == t
    ensures c.DeleteItem? ==> t'.Keys == t.Keys - {c.key.s}
    ensures c.PutItem? ==> t'.Keys == t.Keys + {c.item[KeyAttribute].s}
    ensures c.UpdateItem? ==> t'.Keys == t.Keys + {c.key.s}
    ensures forall k :: (k in t && k in t' && !(c.PutItem? && k == c.item[KeyAttribute].s)
                         && !(c.UpdateItem? && k == c.key.s)) ==> t'[k] == t[k]
  {
    match c
    case PutItem(item) => t[item[KeyAttribute].s := item]
    case GetItem(_) => t
    case Scan(_) => t
    case UpdateItem(key, e, vs, ns) => t[key.s := UpdateBase(t, key.s) + Assignments(e, vs, ns).value]
    case DeleteItem(key) => t - {key.s}
  }

  /** Every accepted call keeps each item under its own `task_id`. */
  lemma ApplyKeepsWellFormed(t: Table, c: Command)
    requires WellFormed(t) && Accepts(c)
    ensures WellFormed(Apply(t, c))
  {
    if c.UpdateItem? {
      var a := Assignments(c.expression, c.values, c.names).value;
      assert KeyAttribute !in a;
    }
  }

  /** The table object the handler calls. */
  class TaskTable {
    var items: Table

    constructor (initial: Table)
      ensures items == initial
    {
      items := initial;
    }

    method PutItem(item: Record) returns (ok: bool)
      modifies this
      ensures ok == Accepts(Command.PutItem(item))
      ensures items == if ok then Apply(old(items), Command.PutItem(item)) else old(items)
    {
      ok := Accepts(Command.PutItem(item));
      if ok {
        items := Apply(items, Command.PutItem(item));
      }
    }

    method GetItem(key: Value) returns (ok: bool, item: Option<Record>)
      ensures ok == IsKey(key)
      ensures ok ==> item == Lookup(items, key.s)
    {
      ok := IsKey(key);
      if ok {
        item := Lookup(items, key.s);
      } else {
        item := None;
      }
    }

    method Scan(dateFilter: Option<string>) returns (records: set<Record>)
      ensures forall r :: r in records <==> exists k :: k in items && items[k] == r && Matches(r, dateFilter)
    {
      records := ScanResult(items, dateFilter);
    }

    method UpdateItem(key: Value, expression: string, values: map<string, Value>, names: Option<map<string, string>>)
      returns (ok: bool)
      modifies this
      ensures ok == Accepts(Command.UpdateItem(key, expression, values, names))
      ensures items == if ok then Apply(old(items), Command.UpdateItem(key, expression, values, names)) else old(items)
    {
      ok := Accepts(Command.UpdateItem(key, expression, values, names));
      if ok {
        items := Apply(items, Command.UpdateItem(key, expression, values, names));
      }
    }

    method DeleteItem(key: Value) returns (ok: bool)
      modifies this
      ensures ok == IsKey(key)
      ensures items == if ok then old(items) - {key.s} else old(items)
    {
      ok := IsKey(key);
      if ok {
        items := Apply(items, Command.DeleteItem(key));
      }
    }
  }
}
