/**
 * The partial-update builder of `PUT /tasks/{id}`: for each of `titulo`, `descricao`
 * and `data` that the body holds it appends a clause to the update expression, binds the
 * body's value to the clause's placeholder and, for the two fields written through an
 * alias, records the alias. `BuildUpdate` does this step by step as the handler does;
 * `UpdateSpec` states the same result as a join of the present fields' clauses.
 */
module UpdateBuilder {
  import opened Wrappers
  import opened Values
  import opened Strings
  import opened Store

  /** The three fields a task update may set, in the order the handler tests them. */
  datatype Field = Titulo | Descricao | Data

  const Fields: seq<Field> := [Titulo, Descricao, Data]
  const FieldNames: set<string> := {"titulo", "descricao", "data"}

  /** The attribute the field is stored under. */
  function Name(f: Field): string
  {
    match f
    case Titulo => "titulo"
    case Descricao => "descricao"
    case Data => "data"
  }

  /** The value placeholder of the field's clause. */
  function Placeholder(f: Field): string
  {
    match f
    case Titulo => ":t"
    case Descricao => ":d"
    case Data => ":dt"
  }

  /** The path of the field's clause: an alias for `titulo` and `data`, the name itself for `descricao`. */
  function Path(f: Field): string
  {
    match f
    case Titulo => "#t"
    case Descricao => "descricao"
    case Data => "#dt"
  }

  function ClauseOf(f: Field): Clause
  {
    Clause(Path(f), Placeholder(f))
  }

  function ClausesOf(fs: seq<Field>): (cs: seq<Clause>)
    ensures |cs| == |fs| && forall i :: 0 <= i < |fs| ==> cs[i] == ClauseOf(fs[i])
  {
    seq(|fs|, i requires 0 <= i < |fs| => ClauseOf(fs[i]))
  }

  /** What the builder produces: the expression and the placeholder and alias maps. */
  datatype Update = Update(expression: string, values: map<string, Value>, names: map<string, string>)

  /** The fields of fs that `Name(f) in body` reports present. */
  function Mentioned(fs: seq<Field>, body: Value): seq<Field>
  {
    if fs == [] then []
    else (if Contains(body, Name(fs[0])) == Success(true) then [fs[0]] else []) + Mentioned(fs[1..], body)
  }

  /** Mentioned keeps exactly the fields of fs that the body holds. */
  lemma {:induction false} MentionedMember(fs: seq<Field>, body: Value, f: Field)
    ensures f in Mentioned(fs, body) <==> f in fs && Contains(body, Name(f)) == Success(true)
  {
    if fs != [] {
      MentionedMember(fs[1..], body, f);
      assert f in fs <==> f == fs[0] || f in fs[1..];
    }
  }

  /** The expression for the given fields: "set " and their clauses joined by ", ". */
  function ExpressionFor(fs: seq<Field>): string
  {
    if fs == [] then "set" else "set " + Join(Renders(ClausesOf(fs)), ", ")
  }

  /** The placeholder map: each field's placeholder bound to the body's value. */
  function ValuesFor(fs: seq<Field>, m: map<string, Value>): map<string, Value>
    requires forall f :: f in fs ==> Name(f) in m
  {
    map f | f in fs :: Placeholder(f) := m[Name(f)]
  }

  /** The alias map: each alias path to the field's name. */
  function NamesFor(fs: seq<Field>): map<string, string>
  {
    map f | f in fs && IsAlias(Path(f)) :: Path(f) := Name(f)
  }

  /** The update the handler builds from a body, or the exception it raises. */
  function UpdateSpec(body: Value): Result<Update, Fault>
  {
    if body.Null? || body.Bool? || body.Num? then Failure(NotIterable(TypeName(body)))
    else
      var fs := Mentioned(Fields, body);
      if body.Obj? then
        MentionedKeys(body.fields);
        Success(Update(ExpressionFor(fs), ValuesFor(fs, body.fields), NamesFor(fs)))
      else if fs == [] then Success(Update(ExpressionFor([]), map[], map[]))
      else Failure(BadSubscript(TypeName(body)))
  }

  /** The alias map as passed to the table: an empty map is passed as None. */
  function NamesArgument(names: map<string, string>): (r: Option<map<string, string>>)
    ensures r.None? <==> names == map[]
    ensures r.Some? ==> r.value == names
  {
    if names == map[] then None else Some(names)
  }

  /** The clauses each followed by ", ", as the handler concatenates them. */
  function Terminated(cs: seq<Clause>): string
  {
    if cs == [] then "" else Terminated(cs[..|cs| - 1]) + Render(cs[|cs| - 1]) + ", "
  }

  /** The fields the builder has written after the block for f, starting from fs. */
  ghost function After(body: Value, fs: seq<Field>, f: Field): seq<Field>
  {
    if Contains(body, Name(f)) == Success(true) then fs + [f] else fs
  }

  /** One `if '<field>' in body:` block of the builder: when the body holds the field,
      append its clause, bind its placeholder to the body's value and record its alias. */
  method AddField(body: Value, f: Field, u: Update, ghost fs: seq<Field>) returns (r: Result<Update, Fault>)
    ensures Contains(body, Name(f)).Failure? ==> r == Failure(NotIterable(TypeName(body)))
    ensures Contains(body, Name(f)) == Success(false) ==> r == Success(u)
    ensures Contains(body, Name(f)) == Success(true) && !body.Obj? ==> r == Failure(BadSubscript(TypeName(body)))
    ensures Contains(body, Name(f)) == Success(true) && body.Obj? ==>
              r == Success(Update(u.expression + ClauseText(f), u.values[Placeholder(f) := body.fields[Name(f)]],
                                  if IsAlias(Path(f)) then u.names[Path(f) := Name(f)] else u.names))
    ensures r.Success? && Partial(body, fs, u.expression, u.values, u.names) ==>
              Partial(body, After(body, fs, f), r.value.expression, r.value.values, r.value.names)
    ensures r.Success? ==> !(body.Null? || body.Bool? || body.Num?)
    ensures r.Failure? ==> r == UpdateSpec(body)
  {
    match Contains(body, Name(f))
    case Failure(e) =>
      NotIterableSpec(body, f);
      return Failure(e);
    case Success(has) =>
      if !has {
        return Success(u);
      }
      var expression := u.expression + Path(f) + " = " + Placeholder(f) + ", ";
      assert expression == u.expression + ClauseText(f);
      match Subscript(body, Name(f))
      case Failure(e) =>
        BadSubscriptSpec(body, f);
        return Failure(e);
      case Success(v) =>
        var values := u.values[Placeholder(f) := v];
        var names := if IsAlias(Path(f)) then u.names[Path(f) := Name(f)] else u.names;
        if Partial(body, fs, u.expression, u.values, u.names) {
          Extend(body, fs, f, u.expression, u.values, u.names);
        }
        return Success(Update(expression, values, names));
  }

  /** Builds the update as the handler does: the `titulo`, `descricao` and `data` blocks in
      turn grow the expression and fill the two maps, then the trailing separator is stripped. */
  method BuildUpdate(body: Value) returns (r: Result<Update, Fault>)
    ensures r == UpdateSpec(body)
  {
    var u := Update("set ", map[], map[]);
    ghost var fs: seq<Field> := [];
    assert Partial(body, fs, u.expression, u.values, u.names);

    var step := AddField(body, Titulo, u, fs);
    match step
    case Failure(e) => return Failure(e);
    case Success(next) => fs := After(body, fs, Titulo); u := next;

    step := AddField(body, Descricao, u, fs);
    match step
    case Failure(e) => return Failure(e);
    case Success(next) => fs := After(body, fs, Descricao); u := next;

    step := AddField(body, Data, u, fs);
    match step
    case Failure(e) => return Failure(e);
    case Success(next) => fs := After(body, fs, Data); u := next;

    Finish(body, fs, u.expression, u.values, u.names);
    return Success(Update(RStrip(u.expression, {',', ' '}), u.values, u.names));
  }

  /** `key in body` fails on a scalar body, and so does the whole build. */
  lemma NotIterableSpec(body: Value, f: Field)
    ensures Contains(body, Name(f)).Failure? ==> UpdateSpec(body) == Failure(NotIterable(TypeName(body)))
  {
  }

  /** A str or list body that holds a field name fails at the subscript, and so does the whole build. */
  lemma BadSubscriptSpec(body: Value, f: Field)
    ensures Contains(body, Name(f)) == Success(true) && !body.Obj? ==> UpdateSpec(body) == Failure(BadSubscript(TypeName(body)))
  {
    if Contains(body, Name(f)) == Success(true) && !body.Obj? {
      assert f in Fields;
      MentionedMember(Fields, body, f);
    }
  }

  /** The builder's state after the fields fs: the expression so far and, for a dict body,
      the two maps of exactly those fields. */
  ghost predicate Partial(body: Value, fs: seq<Field>, expression: string, values: map<string, Value>, names: map<string, string>)
  {
    && expression == "set " + Terminated(ClausesOf(fs))
    && (body.Obj? ==> PartialMaps(body.fields, fs, values, names))
    && (!body.Obj? ==> fs == [] && values == map[] && names == map[])
  }

  /** The two maps of exactly the fields fs, for a dict body m. */
  ghost predicate PartialMaps(m: map<string, Value>, fs: seq<Field>, values: map<string, Value>, names: map<string, string>)
  {
    (forall g :: g in fs ==> Name(g) in m) && values == ValuesFor(fs, m) && names == NamesFor(fs)
  }

  /** The text the builder appends for a field. */
  function ClauseText(f: Field): string
  {
    Render(ClauseOf(f)) + ", "
  }

  /** One step of the builder: field f is present in a dict body. */
  lemma Extend(body: Value, fs: seq<Field>, f: Field, expression: string, values: map<string, Value>, names: map<string, string>)
    requires body.Obj? && Name(f) in body.fields
    requires Partial(body, fs, expression, values, names)
    ensures Partial(body, fs + [f], expression + ClauseText(f), values[Placeholder(f) := body.fields[Name(f)]],
                    if IsAlias(Path(f)) then names[Path(f) := Name(f)] else names)
  {
    ExtendText(fs, f, expression);
    ExtendMaps(body.fields, fs, f, values, names);
  }

  lemma ExtendText(fs: seq<Field>, f: Field, expression: string)
    requires expression == "set " + Terminated(ClausesOf(fs))
    ensures expression + ClauseText(f) == "set " + Terminated(ClausesOf(fs + [f]))
  {
    TerminatedAppend(fs, f);
    Associative("set ", Terminated(ClausesOf(fs)), Render(ClauseOf(f)), ", ");
  }

  lemma ExtendMaps(m: map<string, Value>, fs: seq<Field>, f: Field, values: map<string, Value>, names: map<string, string>)
    requires Name(f) in m && PartialMaps(m, fs, values, names)
    ensures PartialMaps(m, fs + [f], values[Placeholder(f) := m[Name(f)]],
                       if IsAlias(Path(f)) then names[Path(f) := Name(f)] else names)
  {
    ValuesAppend(fs, f, m);
    NamesAppend(fs, f);
  }

  lemma ValuesAppend(fs: seq<Field>, f: Field, m: map<string, Value>)
    requires (forall g :: g in fs ==> Name(g) in m) && Name(f) in m
    ensures ValuesFor(fs + [f], m) == ValuesFor(fs, m)[Placeholder(f) := m[Name(f)]]
  {
    var a := ValuesFor(fs + [f], m);
    var b := ValuesFor(fs, m)[Placeholder(f) := m[Name(f)]];
    MapsKeys(fs + [f], m);
    MapsKeys(fs, m);
    forall k ensures (k in a <==> k in b) && (k in a ==> a[k] == b[k]) {
      if g :| Placeholder(g) == k {
        ValuesAppendField(fs, f, m, g);
      }
    }
  }

  lemma ValuesAppendField(fs: seq<Field>, f: Field, m: map<string, Value>, g: Field)
    requires (forall h :: h in fs ==> Name(h) in m) && Name(f) in m
    ensures var a, b := ValuesFor(fs + [f], m), ValuesFor(fs, m)[Placeholder(f) := m[Name(f)]];
            (Placeholder(g) in a <==> Placeholder(g) in b) && (Placeholder(g) in a ==> a[Placeholder(g)] == b[Placeholder(g)])
  {
    ValuesForAt(fs + [f], m, g);
    ValuesForAt(fs, m, g);
    PlaceholderInjective(g, f);
  }

  lemma NamesAppend(fs: seq<Field>, f: Field)
    ensures NamesFor(fs + [f]) == if IsAlias(Path(f)) then NamesFor(fs)[Path(f) := Name(f)] else NamesFor(fs)
  {
    var a := NamesFor(fs + [f]);
    var b := if IsAlias(Path(f)) then NamesFor(fs)[Path(f) := Name(f)] else NamesFor(fs);
    forall k ensures (k in a <==> k in b) && (k in a ==> a[k] == b[k]) {
      if g :| Path(g) == k {
        NamesForAt(fs + [f], g);
        NamesForAt(fs, g);
        PathInjective(g, f);
      } else {
        assert k !in a;
        assert k !in b;
      }
    }
  }

  lemma NamesForAt(all: seq<Field>, f: Field)
    ensures Path(f) in NamesFor(all) <==> f in all && IsAlias(Path(f))
    ensures Path(f) in NamesFor(all) ==> NamesFor(all)[Path(f)] == Name(f)
  {
    forall g | g in all && IsAlias(Path(g)) && Path(g) == Path(f) ensures g == f {
      PathInjective(g, f);
    }
  }

  lemma PlaceholderInjective(f: Field, g: Field)
    ensures Placeholder(f) == Placeholder(g) <==> f == g
  {
    assert Placeholder(Titulo)[1] == 't' && Placeholder(Descricao)[1] == 'd' && Placeholder(Data)[1] == 'd';
    assert |Placeholder(Descricao)| != |Placeholder(Data)|;
  }

  lemma PathInjective(f: Field, g: Field)
    ensures Path(f) == Path(g) <==> f == g
  {
    assert |Path(Titulo)| == 2 && |Path(Descricao)| == 9 && |Path(Data)| == 3;
  }

  lemma NameInjective(f: Field, g: Field)
    ensures Name(f) == Name(g) <==> f == g
  {
    assert |Name(Titulo)| == 6 && |Name(Descricao)| == 9 && |Name(Data)| == 4;
  }

  /** After the three steps the state is the one UpdateSpec describes. */
  lemma Finish(body: Value, fs: seq<Field>, expression: string, values: map<string, Value>, names: map<string, string>)
    requires Partial(body, fs, expression, values, names)
    requires fs == After(body, After(body, After(body, [], Titulo), Descricao), Data)
    requires !(body.Null? || body.Bool? || body.Num?)
    ensures Success(Update(RStrip(expression, {',', ' '}), values, names)) == UpdateSpec(body)
  {
    AfterMentioned(body);
    StrippedExpression(fs);
  }

  /** The three blocks write exactly the fields Mentioned picks. */
  lemma AfterMentioned(body: Value)
    ensures After(body, After(body, After(body, [], Titulo), Descricao), Data) == Mentioned(Fields, body)
  {
    MentionedFields(body);
  }

  /** Mentioned over the three fields, spelled out. */
  lemma MentionedFields(body: Value)
    ensures Mentioned(Fields, body)
         == (if Contains(body, "titulo") == Success(true) then [Titulo] else [])
          + (if Contains(body, "descricao") == Success(true) then [Descricao] else [])
          + (if Contains(body, "data") == Success(true) then [Data] else [])
  {
    assert Fields[1..] == [Descricao, Data];
    assert [Descricao, Data][1..] == [Data];
    assert [Data][1..] == [];
    assert Mentioned([Data], body) == (if Contains(body, "data") == Success(true) then [Data] else []) + Mentioned([], body);
  }

  /** Concatenating one more clause. */
  lemma TerminatedAppend(fs: seq<Field>, f: Field)
    ensures Terminated(ClausesOf(fs + [f])) == Terminated(ClausesOf(fs)) + Render(ClauseOf(f)) + ", "
  {
    assert ClausesOf(fs + [f])[..|fs|] == ClausesOf(fs);
  }

  /** The concatenated clauses are the joined clauses followed by one separator. */
  lemma {:induction false} TerminatedJoin(cs: seq<Clause>)
    requires |cs| > 0
    ensures Terminated(cs) == Join(Renders(cs), ", ") + ", "
    decreases |cs|
  {
    var init := cs[..|cs| - 1];
    var c := cs[|cs| - 1];
    if |init| > 0 {
      TerminatedJoin(init);
      assert Renders(cs) == Renders(init) + [Render(c)];
      JoinSnoc(Renders(init), Render(c), ", ");
    } else {
      assert Terminated(init) == "";
      assert Renders(cs) == [Render(c)];
    }
  }

  /** Every clause the builder writes is well formed. */
  lemma ClausesWellFormed(fs: seq<Field>)
    ensures forall i :: 0 <= i < |fs| ==> WellFormedClause(ClausesOf(fs)[i])
  {
    forall i | 0 <= i < |fs| ensures WellFormedClause(ClausesOf(fs)[i]) {
      match fs[i]
      case Titulo => assert WellFormedClause(Clause("#t", ":t"));
      case Descricao => assert WellFormedClause(Clause("descricao", ":d"));
      case Data => assert WellFormedClause(Clause("#dt", ":dt"));
    }
  }

  /** The joined clauses end with the last placeholder's last character. */
  lemma JoinedEnd(cs: seq<Clause>)
    requires |cs| > 0 && IsToken(cs[|cs| - 1].placeholder)
    ensures var j := Join(Renders(cs), ", "); |j| > 0 && j[|j| - 1] != ',' && j[|j| - 1] != ' '
  {
    var p := cs[|cs| - 1].placeholder;
    var last := Renders(cs)[|cs| - 1];
    assert last == cs[|cs| - 1].path + " = " + p;
    assert last[|last| - 1] == p[|p| - 1];
    assert p[|p| - 1] in p;
    JoinLast(Renders(cs), ", ");
  }

  /** Stripping ", " characters from concatenated clauses gives "set " and the joined clauses. */
  lemma StrippedClauses(cs: seq<Clause>)
    requires |cs| > 0 && IsToken(cs[|cs| - 1].placeholder)
    ensures RStrip("set " + Terminated(cs), {',', ' '}) == "set " + Join(Renders(cs), ", ")
  {
    var j := Join(Renders(cs), ", ");
    TerminatedJoin(cs);
    JoinedEnd(cs);
    StripCommaSpace("set ", j);
  }

  /** Stripping ", " characters from the concatenated clauses gives the joined expression. */
  lemma StrippedExpression(fs: seq<Field>)
    ensures RStrip("set " + Terminated(ClausesOf(fs)), {',', ' '}) == ExpressionFor(fs)
  {
    if fs == [] {
      assert "set " + Terminated(ClausesOf(fs)) == "set" + " ";
      RStripSuffix("set", " ", {',', ' '});
    } else {
      ClausesWellFormed(fs);
      StrippedClauses(ClausesOf(fs));
    }
  }

  // ----- properties of the update a dict body yields -----

  predicate Distinct(fs: seq<Field>)
  {
    forall i, j :: 0 <= i < j < |fs| ==> fs[i] != fs[j]
  }

  lemma {:induction false} MentionedDistinct(fs: seq<Field>, body: Value)
    requires Distinct(fs)
    ensures Distinct(Mentioned(fs, body))
  {
    if fs != [] {
      var rest := fs[1..];
      assert Distinct(rest) by {
        forall i, j | 0 <= i < j < |rest| ensures rest[i] != rest[j] {
          assert rest[i] == fs[i + 1] && rest[j] == fs[j + 1];
        }
      }
      MentionedDistinct(rest, body);
      assert fs[0] !in rest by {
        forall i | 0 <= i < |rest| ensures rest[i] != fs[0] {
          assert rest[i] == fs[i + 1];
        }
      }
      var head := if Contains(body, Name(fs[0])) == Success(true) then [fs[0]] else [];
      var r := head + Mentioned(rest, body);
      forall i, j | 0 <= i < j < |r| ensures r[i] != r[j] {
        if i < |head| {
          assert r[j] in Mentioned(rest, body);
          MentionedMember(rest, body, r[j]);
        }
      }
    }
  }

  /** The placeholders the clauses use are those of the fields. */
  lemma {:induction false} PlaceholdersOfFields(fs: seq<Field>)
    ensures Placeholders(ClausesOf(fs)) == set f | f in fs :: Placeholder(f)
  {
    if fs != [] {
      assert ClausesOf(fs)[1..] == ClausesOf(fs[1..]);
      PlaceholdersOfFields(fs[1..]);
      assert forall f :: f in fs <==> f == fs[0] || f in fs[1..];
    }
  }

  /** The aliases the clauses use are those of the aliased fields. */
  lemma {:induction false} AliasesOfFields(fs: seq<Field>)
    ensures Aliases(ClausesOf(fs)) == set f | f in fs && IsAlias(Path(f)) :: Path(f)
  {
    if fs != [] {
      assert ClausesOf(fs)[1..] == ClausesOf(fs[1..]);
      AliasesOfFields(fs[1..]);
      assert forall f :: f in fs <==> f == fs[0] || f in fs[1..];
    }
  }

  /** Each field's path resolves, through the alias map the handler passes, to its name. */
  lemma AttributeOfField(f: Field, all: seq<Field>)
    requires f in all
    ensures AttributeOf(Path(f), NamesArgument(NamesFor(all))) == Some(Name(f))
  {
    if IsAlias(Path(f)) {
      assert Path(f) in NamesFor(all);
      forall g | g in all && IsAlias(Path(g)) && Path(g) == Path(f) ensures g == f {
        PathInjective(g, f);
      }
    } else {
      assert f == Descricao;
    }
  }

  /** Each field's name bound to the body's value. */
  function FieldMap(fs: seq<Field>, m: map<string, Value>): map<string, Value>
    requires forall f :: f in fs ==> Name(f) in m
  {
    map f | f in fs :: Name(f) := m[Name(f)]
  }

  lemma FieldMapAt(fs: seq<Field>, m: map<string, Value>, k: string)
    requires forall f :: f in fs ==> Name(f) in m
    ensures k in FieldMap(fs, m) <==> exists g :: g in fs && Name(g) == k
    ensures k in FieldMap(fs, m) ==> k in m && FieldMap(fs, m)[k] == m[k]
  {
    if k in FieldMap(fs, m) {
      var g :| g in fs && Name(g) == k;
      forall h | h in fs && Name(h) == k ensures h == g { NameInjective(h, g); }
    }
  }

  lemma FieldMapCons(fs: seq<Field>, m: map<string, Value>)
    requires fs != [] && fs[0] !in fs[1..]
    requires forall f :: f in fs ==> Name(f) in m
    ensures Name(fs[0]) !in FieldMap(fs[1..], m)
    ensures FieldMap(fs, m) == FieldMap(fs[1..], m)[Name(fs[0]) := m[Name(fs[0])]]
  {
    var f := fs[0];
    FieldMapAt(fs[1..], m, Name(f));
    if Name(f) in FieldMap(fs[1..], m) {
      var g :| g in fs[1..] && Name(g) == Name(f);
      NameInjective(g, f);
    }
    var a := FieldMap(fs, m);
    var b := FieldMap(fs[1..], m)[Name(f) := m[Name(f)]];
    forall k ensures (k in a <==> k in b) && (k in a ==> a[k] == b[k]) {
      FieldMapAt(fs, m, k);
      FieldMapAt(fs[1..], m, k);
      assert forall g :: g in fs <==> g == f || g in fs[1..];
    }
  }

  lemma ValuesForAt(all: seq<Field>, m: map<string, Value>, f: Field)
    requires forall g :: g in all ==> Name(g) in m
    ensures Placeholder(f) in ValuesFor(all, m) <==> f in all
    ensures f in all ==> ValuesFor(all, m)[Placeholder(f)] == m[Name(f)]
  {
    forall g | g in all && Placeholder(g) == Placeholder(f) ensures g == f {
      PlaceholderInjective(g, f);
    }
  }

  lemma DistinctTail(fs: seq<Field>)
    requires fs != [] && Distinct(fs)
    ensures Distinct(fs[1..]) && fs[0] !in fs[1..]
  {
    var rest := fs[1..];
    forall i, j | 0 <= i < j < |rest| ensures rest[i] != rest[j] {
      assert rest[i] == fs[i + 1] && rest[j] == fs[j + 1];
    }
    forall i | 0 <= i < |rest| ensures rest[i] != fs[0] {
      assert rest[i] == fs[i + 1];
    }
  }

  /** The table resolves the clauses of distinct fields to each field's body value. */
  lemma {:induction false} ResolveFields(fs: seq<Field>, all: seq<Field>, m: map<string, Value>)
    requires Distinct(fs) && (forall f :: f in fs ==> f in all)
    requires forall f :: f in all ==> Name(f) in m
    ensures Resolve(ClausesOf(fs), ValuesFor(all, m), NamesArgument(NamesFor(all))) == Some(FieldMap(fs, m))
  {
    if fs == [] {
      assert ClausesOf(fs) == [];
    } else {
      var f := fs[0];
      DistinctTail(fs);
      ResolveFields(fs[1..], all, m);
      var cs := ClausesOf(fs);
      assert cs[0] == ClauseOf(f) && cs[1..] == ClausesOf(fs[1..]);
      AttributeOfField(f, all);
      ValuesForAt(all, m, f);
      FieldMapCons(fs, m);
    }
  }

  /** The fields the update sets are the body's entries for the three field names. */
  lemma PresentFields(fs: seq<Field>, m: map<string, Value>)
    requires forall f :: f in fs <==> Name(f) in m
    ensures FieldMap(fs, m) == map k | k in m && k in FieldNames :: m[k]
  {
    var a := FieldMap(fs, m);
    var b := map k | k in m && k in FieldNames :: m[k];
    assert a.Keys == b.Keys by {
      forall k ensures k in a <==> k in b { PresentEntry(fs, m, k); }
    }
    forall k | k in a ensures a[k] == b[k] { PresentEntry(fs, m, k); }
  }

  lemma PresentEntry(fs: seq<Field>, m: map<string, Value>, k: string)
    requires forall f :: f in fs <==> Name(f) in m
    ensures (k in FieldMap(fs, m) <==> k in m && k in FieldNames)
    ensures k in FieldMap(fs, m) ==> FieldMap(fs, m)[k] == m[k]
  {
    FieldMapAt(fs, m, k);
    FieldNameOf(k);
  }

  /** The three field names are the names of the three fields. */
  lemma FieldNameOf(k: string)
    ensures k in FieldNames <==> exists f :: Name(f) == k
  {
    if k in FieldNames {
      assert Name(if k == "titulo" then Titulo else if k == "descricao" then Descricao else Data) == k;
    }
  }

  /** For each field: its placeholder is bound exactly when the field is among fs, to the
      body's value; its alias is recorded exactly when the field is written through one and
      is among fs. */
  lemma MapsAt(fs: seq<Field>, m: map<string, Value>, f: Field)
    requires forall g :: g in fs <==> Name(g) in m
    ensures Placeholder(f) in ValuesFor(fs, m) <==> Name(f) in m
    ensures Placeholder(f) in ValuesFor(fs, m) ==> ValuesFor(fs, m)[Placeholder(f)] == m[Name(f)]
    ensures IsAlias(Path(f)) ==> (Path(f) in NamesFor(fs) <==> Name(f) in m)
    ensures Path(f) in NamesFor(fs) ==> NamesFor(fs)[Path(f)] == Name(f)
  {
    ValuesForAt(fs, m, f);
    forall g | g in fs && IsAlias(Path(g)) && Path(g) == Path(f) ensures g == f {
      PathInjective(g, f);
    }
  }

  /** Every key of the two maps belongs to some field. */
  lemma MapsKeys(fs: seq<Field>, m: map<string, Value>)
    requires forall g :: g in fs ==> Name(g) in m
    ensures forall k :: k in ValuesFor(fs, m) ==> exists f :: Placeholder(f) == k
    ensures forall k :: k in NamesFor(fs) ==> exists f :: IsAlias(Path(f)) && Path(f) == k && NamesFor(fs)[k] == Name(f)
  {
    var names := NamesFor(fs);
    forall k | k in names ensures exists f :: IsAlias(Path(f)) && Path(f) == k && names[k] == Name(f) {
      var g :| g in fs && IsAlias(Path(g)) && Path(g) == k;
      forall h | h in fs && IsAlias(Path(h)) && Path(h) == k ensures h == g { PathInjective(h, g); }
    }
  }

  /** The placeholder map for the fields fs, spelled out with the concrete placeholders. */
  lemma ValuesSpelled(fs: seq<Field>, m: map<string, Value>)
    requires forall g :: g in fs <==> Name(g) in m
    ensures var values := ValuesFor(fs, m);
      && (":t" in values <==> "titulo" in m) && (":t" in values ==> values[":t"] == m["titulo"])
      && (":d" in values <==> "descricao" in m) && (":d" in values ==> values[":d"] == m["descricao"])
      && (":dt" in values <==> "data" in m) && (":dt" in values ==> values[":dt"] == m["data"])
  {
    assert Placeholder(Titulo) == ":t" && Placeholder(Descricao) == ":d" && Placeholder(Data) == ":dt";
    assert Name(Titulo) == "titulo" && Name(Descricao) == "descricao" && Name(Data) == "data";
    MapsAt(fs, m, Titulo);
    MapsAt(fs, m, Descricao);
    MapsAt(fs, m, Data);
  }

  /** The placeholder map binds no other key, and is empty exactly when fs is. */
  lemma ValuesBounded(fs: seq<Field>, m: map<string, Value>)
    requires forall g :: g in fs <==> Name(g) in m
    ensures ValuesFor(fs, m).Keys <= {":t", ":d", ":dt"}
    ensures ValuesFor(fs, m) == map[] <==> "titulo" !in m && "descricao" !in m && "data" !in m
  {
    var values := ValuesFor(fs, m);
    MapsKeys(fs, m);
    forall k | k in values ensures k in {":t", ":d", ":dt"} {
      var f :| Placeholder(f) == k;
      match f
      case Titulo => case Descricao => case Data =>
    }
    if "titulo" in m || "descricao" in m || "data" in m {
      var f := if "titulo" in m then Titulo else if "descricao" in m then Descricao else Data;
      assert Name(f) in m;
      MapsAt(fs, m, f);
    }
  }

  /** The alias map for the fields fs, spelled out with the concrete aliases. */
  lemma NamesSpelled(fs: seq<Field>, m: map<string, Value>)
    requires forall g :: g in fs <==> Name(g) in m
    ensures var names := NamesFor(fs);
      && ("#t" in names <==> "titulo" in m) && ("#t" in names ==> names["#t"] == "titulo")
      && ("#dt" in names <==> "data" in m) && ("#dt" in names ==> names["#dt"] == "data")
  {
    assert Path(Titulo) == "#t" && Path(Data) == "#dt";
    assert Name(Titulo) == "titulo" && Name(Data) == "data";
    MapsAt(fs, m, Titulo);
    MapsAt(fs, m, Data);
  }

  /** The alias map records only `#t` and `#dt`, and never `descricao`. */
  lemma NamesBounded(fs: seq<Field>, m: map<string, Value>)
    requires forall g :: g in fs <==> Name(g) in m
    ensures NamesFor(fs).Keys <= {"#t", "#dt"}
    ensures "descricao" !in NamesFor(fs).Values
  {
    var names := NamesFor(fs);
    MapsKeys(fs, m);
    forall k | k in names ensures k in {"#t", "#dt"} && names[k] != "descricao" {
      var f :| IsAlias(Path(f)) && Path(f) == k && names[k] == Name(f);
      match f
      case Titulo => case Descricao => case Data =>
    }
  }

  /** The placeholder map holds `:t`, `:d` and `:dt` exactly for the fields the body holds,
      each bound to the body's value (null included); the alias map holds `#t` and `#dt`
      exactly for `titulo` and `data` and never an entry for `descricao`; the placeholder map
      is empty exactly when the body holds none of the three. */
  lemma UpdateMaps(m: map<string, Value>)
    ensures UpdateSpec(Obj(m)).Success?
    ensures var u := UpdateSpec(Obj(m)).value;
      && (":t" in u.values <==> "titulo" in m) && (":t" in u.values ==> u.values[":t"] == m["titulo"])
      && (":d" in u.values <==> "descricao" in m) && (":d" in u.values ==> u.values[":d"] == m["descricao"])
      && (":dt" in u.values <==> "data" in m) && (":dt" in u.values ==> u.values[":dt"] == m["data"])
      && u.values.Keys <= {":t", ":d", ":dt"}
      && ("#t" in u.names <==> "titulo" in m) && ("#t" in u.names ==> u.names["#t"] == "titulo")
      && ("#dt" in u.names <==> "data" in m) && ("#dt" in u.names ==> u.names["#dt"] == "data")
      && u.names.Keys <= {"#t", "#dt"}
      && "descricao" !in u.names.Values
      && (u.values == map[] <==> "titulo" !in m && "descricao" !in m && "data" !in m)
  {
    var fs := Mentioned(Fields, Obj(m));
    MentionedKeys(m);
    assert UpdateSpec(Obj(m)) == Success(Update(ExpressionFor(fs), ValuesFor(fs, m), NamesFor(fs)));
    ValuesSpelled(fs, m);
    ValuesBounded(fs, m);
    NamesSpelled(fs, m);
    NamesBounded(fs, m);
  }

  /** The update expression is "set " followed by the present fields' clauses, in the
      order `titulo`, `descricao`, `data`, separated by ", " and with no trailing separator. */
  lemma UpdateExpressionText(m: map<string, Value>)
    requires "titulo" in m || "descricao" in m || "data" in m
    ensures UpdateSpec(Obj(m)).Success?
    ensures UpdateSpec(Obj(m)).value.expression
         == "set " + Join((if "titulo" in m then ["#t = :t"] else [])
                        + (if "descricao" in m then ["descricao = :d"] else [])
                        + (if "data" in m then ["#dt = :dt"] else []), ", ")
  {
    var fs := Mentioned(Fields, Obj(m));
    MentionedFields(Obj(m));
    var t, d, dt := "titulo" in m, "descricao" in m, "data" in m;
    assert fs == (if t then [Titulo] else []) + (if d then [Descricao] else []) + (if dt then [Data] else []);
    RendersPresent(t, d, dt);
    assert fs != [];
  }

  /** The rendered clauses of the present fields, in the handler's order. */
  lemma RendersPresent(t: bool, d: bool, dt: bool)
    ensures Renders(ClausesOf((if t then [Titulo] else []) + (if d then [Descricao] else []) + (if dt then [Data] else [])))
         == (if t then ["#t = :t"] else []) + (if d then ["descricao = :d"] else []) + (if dt then ["#dt = :dt"] else [])
  {
    var a, b, c := (if t then [Titulo] else []), (if d then [Descricao] else []), (if dt then [Data] else []);
    RendersConcat(a + b, c);
    RendersConcat(a, b);
    RenderedClauses();
  }

  lemma RendersConcat(a: seq<Field>, b: seq<Field>)
    ensures Renders(ClausesOf(a + b)) == Renders(ClausesOf(a)) + Renders(ClausesOf(b))
  {
  }

  /** The clause text of each field. */
  lemma RenderedClauses()
    ensures Renders(ClausesOf([Titulo])) == ["#t = :t"]
    ensures Renders(ClausesOf([Descricao])) == ["descricao = :d"]
    ensures Renders(ClausesOf([Data])) == ["#dt = :dt"]
  {
    assert Render(ClauseOf(Titulo)) == "#t = :t";
    assert Render(ClauseOf(Descricao)) == "descricao = :d";
    assert Render(ClauseOf(Data)) == "#dt = :dt";
  }

  /** What the table makes of the update: it sets exactly the fields the body holds, each to
      the body's value, and it accepts the expression, the placeholder map and the alias map
      as the handler passes them (an empty alias map as None). */
  lemma UpdateRoundTrip(m: map<string, Value>)
    requires "titulo" in m || "descricao" in m || "data" in m
    ensures UpdateSpec(Obj(m)).Success?
    ensures var u := UpdateSpec(Obj(m)).value;
            Assignments(u.expression, u.values, NamesArgument(u.names))
              == Some(map k | k in m && k in FieldNames :: m[k])
  {
    var fs := Mentioned(Fields, Obj(m));
    MentionedKeys(m);
    assert fs != [] by {
      if "titulo" in m { assert Name(Titulo) in m; }
      else if "descricao" in m { assert Name(Descricao) in m; }
      else { assert Name(Data) in m; }
    }
    assert UpdateSpec(Obj(m)) == Success(Update(ExpressionFor(fs), ValuesFor(fs, m), NamesFor(fs)));
    AssignmentsOfFields(fs, m);
    PresentFields(fs, m);
  }

  /** The fields an object mentions are its keys among the three, each once. */
  lemma MentionedKeys(m: map<string, Value>)
    ensures Distinct(Mentioned(Fields, Obj(m)))
    ensures forall f :: f in Mentioned(Fields, Obj(m)) <==> Name(f) in m
  {
    assert Distinct(Fields);
    MentionedDistinct(Fields, Obj(m));
    forall f ensures f in Mentioned(Fields, Obj(m)) <==> Name(f) in m {
      MentionedMember(Fields, Obj(m), f);
      match f
      case Titulo => assert Fields[0] == f;
      case Descricao => assert Fields[1] == f;
      case Data => assert Fields[2] == f;
    }
  }

  /** The table reads the update for distinct present fields as those fields' values. */
  lemma AssignmentsOfFields(fs: seq<Field>, m: map<string, Value>)
    requires fs != [] && Distinct(fs)
    requires forall f :: f in fs ==> Name(f) in m
    ensures Assignments(ExpressionFor(fs), ValuesFor(fs, m), NamesArgument(NamesFor(fs))) == Some(FieldMap(fs, m))
  {
    ExpressionParses(fs);
    ValuesKeys(fs, m);
    NamesKeys(fs);
    ResolveFields(fs, fs, m);
    NoKeyField(fs, m);
    AcceptedAssignments(ExpressionFor(fs), ValuesFor(fs, m), NamesArgument(NamesFor(fs)), ClausesOf(fs), FieldMap(fs, m));
  }

  /** The placeholder map binds exactly the placeholders the clauses use. */
  lemma ValuesKeys(fs: seq<Field>, m: map<string, Value>)
    requires forall f :: f in fs ==> Name(f) in m
    ensures ValuesFor(fs, m).Keys == Placeholders(ClausesOf(fs))
  {
    PlaceholdersOfFields(fs);
  }

  /** The alias map binds exactly the aliases the clauses use. */
  lemma NamesKeys(fs: seq<Field>)
    ensures NamesFor(fs).Keys == Aliases(ClausesOf(fs))
  {
    AliasesOfFields(fs);
  }

  /** The expression built for some fields parses back into those fields' clauses. */
  lemma ExpressionParses(fs: seq<Field>)
    requires fs != []
    ensures "set " <= ExpressionFor(fs) && ParseClauses(ExpressionFor(fs)[4..]) == Some(ClausesOf(fs))
  {
    var j := Join(Renders(ClausesOf(fs)), ", ");
    assert ExpressionFor(fs)[4..] == j;
    ClausesWellFormed(fs);
    ParseJoined(ClausesOf(fs));
  }

  /** No field is the key attribute. */
  lemma NoKeyField(fs: seq<Field>, m: map<string, Value>)
    requires forall f :: f in fs ==> Name(f) in m
    ensures KeyAttribute !in FieldMap(fs, m)
  {
    FieldMapAt(fs, m, KeyAttribute);
    forall g: Field ensures Name(g) != KeyAttribute {
      assert |KeyAttribute| == 7;
      match g
      case Titulo => assert |Name(g)| == 6;
      case Descricao => assert |Name(g)| == 9;
      case Data => assert |Name(g)| == 4;
    }
  }

  /** The conditions under which the table accepts an update expression. */
  lemma AcceptedAssignments(e: string, values: map<string, Value>, names: Option<map<string, string>>,
                            cs: seq<Clause>, a: map<string, Value>)
    requires "set " <= e && ParseClauses(e[4..]) == Some(cs)
    requires values.Keys == Placeholders(cs)
    requires names.Some? ==> names.value != map[] && names.value.Keys == Aliases(cs)
    requires Resolve(cs, values, names) == Some(a) && KeyAttribute !in a
    ensures Assignments(e, values, names) == Some(a)
  {
  }
}
