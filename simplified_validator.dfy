// Validation of simplified (Gen3-shaped) records against the data
// dictionary's schemas. The module-level log and compile cache are the
// fields of a `Validator`; the compiled schema's own check is a parameter
// (`conforms`), given the schema it was compiled from and the object, and
// answering with the message of the exception it raises, if any.

module SimplifiedValidator {

  import opened Text
  import opened Json
  import Inflection

  /** The exception a `ParseResult` carries: an AssertionError with its
      message, or the subset assertion, whose message shows a Python set. */
  datatype Caught =
    | AssertionFailed(message: string)
    | ExtraKeys(extra: set<string>)

  /** The `ParseResult` that `validate` returns. */
  datatype Outcome = Outcome(obj: Option<Json>, exception: Option<Caught>, resourceId: Option<Json>)

  /** How far `validate` got before the compiled schema runs. */
  datatype Stage =
    | Raised(error: PyError)
    | Failed(obj: Option<Fields>, caught: Caught)
    | Passed(record: Fields, key: string, schema: Json)

  /** The extra-property messages logged, and the stage reached. */
  datatype Checked = Checked(messages: set<string>, stage: Stage)

  function TypeName(j: Json): string
  {
    match j
    case Null => "NoneType"
    case Bool(_) => "bool"
    case Int(_) => "int"
    case Str(_) => "str"
    case Arr(_) => "list"
    case Obj(_) => "dict"
  }

  function ExtraMessage(resourceType: string, k: string, v: Json): string
  {
    "extra property: " + resourceType + "." + k + " " + TypeName(v)
  }

  function KeySet(f: Fields): set<string>
  {
    set k | k in Keys(f)
  }

  /** `schemas.get(key, schemas.get(f"{key}.yaml", None))` */
  function SchemaFor(schemas: Fields, key: string): Option<Json>
  {
    match Get(schemas, key)
    case Some(s) => Some(s)
    case None => Get(schemas, key + ".yaml")
  }

  /** `[_['name'] for _ in links]` */
  function LinkValues(items: seq<Json>): (r: Result<seq<Json>>)
    ensures r.Ok? ==> |r.value| == |items|
  {
    if items == [] then Ok([])
    else
      var rest :- LinkValues(items[..|items| - 1]);
      var name :- Subscript(items[|items| - 1], Str("name"));
      Ok(rest + [name])
  }

  /** The keys an object may have: the schema's properties and link names. */
  function ExpectedKeys(s: Json): (r: Result<set<string>>)
    ensures r.Ok? ==> s.Obj? && Has(s.fields, "properties") && Has(s.fields, "links")
  {
    var props :- Subscript(s, Str("properties"));
    if !props.Obj? then Err(AttributeError("keys"))
    else
      var links :- Subscript(s, Str("links"));
      var items :- Iterate(links);
      var names :- LinkValues(items);
      if exists i :: 0 <= i < |names| && !Hashable(names[i]) then Err(TypeError("unhashable type"))
      else Ok(KeySet(props.fields) + set i | 0 <= i < |names| && names[i].Str? :: names[i].s)
  }

  /** The first required name not in the object, if any. */
  function FirstMissing(o: Fields, items: seq<Json>): (r: Result<Option<Json>>)
    ensures r.Ok? && r.value.None? ==> forall i :: 0 <= i < |items| ==> items[i].Str? ==> Has(o, items[i].s)
    ensures r.Ok? && r.value.Some? ==> r.value.value in items && !(r.value.value.Str? && Has(o, r.value.value.s))
  {
    if items == [] then Ok(None)
    else
      var present :- HasKey(o, items[0]);
      if !present then Ok(Some(items[0])) else FirstMissing(o, items[1..])
  }

  /** `for _ in schema['required']: assert _ in object_` */
  function Required(o: Fields, s: Fields): Result<Option<Json>>
  {
    if !Has(s, "required") then Ok(None)
    else
      var items :- Iterate(At(s, "required"));
      FirstMissing(o, items)
  }

  /** `validate` up to the compiled schema. */
  function Check(gen3: Fields, schemas: Fields): Checked
  {
    if !Has(gen3, "id") then Checked({}, Failed(None, AssertionFailed("id not in " + Repr(Obj(gen3)))))
    else if !Has(gen3, "relations") then Checked({}, Failed(None, AssertionFailed("relations not in " + Repr(Obj(gen3)))))
    else if !Has(gen3, "object") then Checked({}, Failed(None, AssertionFailed("object not in " + Repr(Obj(gen3)))))
    else
      var obj := At(gen3, "object");
      match ObjIndex(obj, "resourceType")
      case Err(e) => Checked({}, Raised(e))
      case Ok(rt) =>
        if !rt.Str? then Checked({}, Raised(TypeError("expected string or bytes-like object")))
        else CheckSchema(obj.fields, rt.s, Inflection.Underscore(rt.s), schemas)
  }

  /** From the schema lookup, under `key` (the underscored type), to the
      required keys. */
  function CheckSchema(o: Fields, resourceType: string, key: string, schemas: Fields): (c: Checked)
    ensures c.stage.Failed? ==> c.stage.obj == Some(o)
    ensures c.stage.Passed? ==> c.stage.record == o && c.stage.key == key
  {
    var found := SchemaFor(schemas, key);
    if found.None? || !Truthy(found.value) then
      Checked({}, Failed(Some(o), AssertionFailed("Could not find schema for " + key)))
    else
      var s := found.value;
      match ExpectedKeys(s)
      case Err(e) => Checked({}, Raised(e))
      case Ok(expected) => CheckKeys(o, resourceType, key, s, expected)
  }

  /** From the subset test to the required keys, for a found schema. */
  function CheckKeys(o: Fields, resourceType: string, key: string, s: Json, expected: set<string>): (c: Checked)
    requires s.Obj?
    ensures c.stage.Failed? ==> c.stage.obj == Some(o)
    ensures c.stage.Passed? ==> c.stage.record == o && c.stage.key == key && c.stage.schema == s
  {
    var extra := KeySet(o) - expected;
    var additional := Truthy(GetOr(s.fields, "additionalProperties", Bool(false)));
    if extra != {} && !additional then Checked({}, Failed(Some(o), ExtraKeys(extra)))
    else
      var messages := set k | k in extra :: ExtraMessage(resourceType, k, At(o, k));
      match Required(o, s.fields)
      case Err(e) => Checked(messages, Raised(e))
      case Ok(Some(m)) => Checked(messages, Failed(Some(o), AssertionFailed(Format(m) + " missing " + Repr(Obj(o)))))
      case Ok(None) => Checked(messages, Passed(o, key, s))
  }

  /** `COMPILED_SCHEMAS` after the call: a key's schema is compiled the
      first time a record reaches the compile step with that key. */
  function CacheAfter(stage: Stage, cache: map<string, Json>): map<string, Json>
  {
    if stage.Passed? && stage.key !in cache then cache[stage.key := stage.schema] else cache
  }

  /** `object_.get('id', None)` */
  function IdOf(o: Fields): Option<Json>
  {
    match Get(o, "id")
    case Some(Null) => None
    case r => r
  }

  /** What `validate` returns; the compiled schema's exception is not one
      the `except` clause names, so it escapes as a ValueError. */
  function Settle(c: Checked, cache: map<string, Json>, conforms: (Json, Json) -> Option<string>): Result<Outcome>
  {
    match c.stage
    case Raised(e) => Err(e)
    case Failed(None, x) => Ok(Outcome(None, Some(x), None))
    case Failed(Some(o), x) => Ok(Outcome(Some(Obj(o)), Some(x), IdOf(o)))
    case Passed(o, key, _) =>
      var compiled := CacheAfter(c.stage, cache)[key];
      match conforms(compiled, Obj(o))
      case Some(msg) => Err(ValueError(msg))
      case None => Ok(Outcome(Some(Obj(o)), None, IdOf(o)))
  }

  /** The log after messages are logged once each: the old log, then the
      new messages not already in it. */
  ghost predicate LoggedAfter(before: seq<string>, messages: set<string>, after: seq<string>)
  {
    && |before| <= |after| && after[..|before|] == before
    && (forall m :: m in after <==> m in before || m in messages)
  }

  predicate NoDuplicates(xs: seq<string>)
  {
    forall i, j :: 0 <= i < j < |xs| ==> xs[i] != xs[j]
  }

  class Validator {
    /** `LOGGED_ALREADY` */
    var logged: seq<string>
    /** `COMPILED_SCHEMAS`, each entry as the schema it was compiled from. */
    var compiled: map<string, Json>

    predicate Valid()
      reads this
    {
      NoDuplicates(logged)
    }

    constructor ()
      ensures Valid() && logged == [] && compiled == map[]
    {
      logged := [];
      compiled := map[];
    }

    /** `log_once` */
    method LogOnce(msg: string)
      requires Valid()
      modifies this
      ensures Valid() && compiled == old(compiled)
      ensures logged == if msg in old(logged) then old(logged) else old(logged) + [msg]
    {
      if msg !in logged {
        logged := logged + [msg];
      }
    }

    /** The loop over the extra properties, in set order. */
    method LogAll(messages: set<string>)
      requires Valid()
      modifies this
      ensures Valid() && compiled == old(compiled)
      ensures |old(logged)| <= |logged| && logged[..|old(logged)|] == old(logged)
      ensures forall m :: m in logged <==> m in old(logged) || m in messages
    {
      var todo := messages;
      while todo != {}
        invariant Valid() && compiled == old(compiled)
        invariant |old(logged)| <= |logged| && logged[..|old(logged)|] == old(logged)
        invariant todo <= messages
        invariant forall m :: m in logged <==> m in old(logged) || m in messages - todo
        decreases |todo|
      {
        var m :| m in todo;
        LogOnce(m);
        todo := todo - {m};
      }
    }

    /** `validate(gen3_resource, schemas)` */
    method Validate(gen3: Fields, schemas: Fields, conforms: (Json, Json) -> Option<string>) returns (r: Result<Outcome>)
      requires Valid()
      modifies this
      ensures Valid()
      ensures r == Settle(Check(gen3, schemas), old(compiled), conforms)
      ensures compiled == CacheAfter(Check(gen3, schemas).stage, old(compiled))
      ensures LoggedAfter(old(logged), Check(gen3, schemas).messages, logged)
    {
      var c := Check(gen3, schemas);
      var before := compiled;
      LogAll(c.messages);
      if c.stage.Passed? {
        if c.stage.key !in compiled {
          compiled := compiled[c.stage.key := c.stage.schema];
        }
      }
      r := Settle(c, before, conforms);
    }
  }

  // ---------------------------------------------------------------------
  // Properties of `validate`

  /** A record without `id`, `relations` or `object` gives a result that
      carries the assertion, with no object. */
  lemma MissingPropertyFails(gen3: Fields, schemas: Fields, cache: map<string, Json>, conforms: (Json, Json) -> Option<string>)
    ensures (!Has(gen3, "id") || !Has(gen3, "relations") || !Has(gen3, "object"))
            <==> Check(gen3, schemas).stage.Failed? && Check(gen3, schemas).stage.obj.None?
    ensures Check(gen3, schemas).stage.Failed? && Check(gen3, schemas).stage.obj.None? ==>
              var r := Settle(Check(gen3, schemas), cache, conforms);
              r.Ok? && r.value.exception.Some? && r.value.obj.None? && r.value.resourceId.None?
  {
  }

  /** A record with the three properties and a string `resourceType` is
      checked under its underscored type. */
  lemma CheckedUnderType(gen3: Fields, schemas: Fields)
    requires Has(gen3, "id") && Has(gen3, "relations") && Has(gen3, "object")
    requires ObjIndex(At(gen3, "object"), "resourceType").Ok? && ObjIndex(At(gen3, "object"), "resourceType").value.Str?
    ensures var rt := ObjIndex(At(gen3, "object"), "resourceType").value.s;
            Check(gen3, schemas) == CheckSchema(At(gen3, "object").fields, rt, Inflection.Underscore(rt), schemas)
  {
  }

  /** The schema is looked up under the underscored type, then with
      `.yaml`; a missing or empty one fails the assertion. */
  lemma SchemaLookup(o: Fields, resourceType: string, key: string, schemas: Fields)
    ensures var found := if Has(schemas, key) then Get(schemas, key) else Get(schemas, key + ".yaml");
            && (CheckSchema(o, resourceType, key, schemas).stage == Failed(Some(o), AssertionFailed("Could not find schema for " + key))
                <== found.None? || !Truthy(found.value))
            && (CheckSchema(o, resourceType, key, schemas).stage.Passed? ==>
                  found.Some? && CheckSchema(o, resourceType, key, schemas).stage.schema == found.value
                  && CheckSchema(o, resourceType, key, schemas).stage.key == key)
  {
  }

  /** A record that passes has only expected keys unless the schema allows
      additional properties, and has every required name. */
  lemma PassedKeys(o: Fields, resourceType: string, key: string, schemas: Fields)
    requires CheckSchema(o, resourceType, key, schemas).stage.Passed?
    ensures var s := CheckSchema(o, resourceType, key, schemas).stage.schema;
            && s.Obj? && ExpectedKeys(s).Ok?
            && (KeySet(o) <= ExpectedKeys(s).value || Truthy(GetOr(s.fields, "additionalProperties", Bool(false))))
            && (Has(s.fields, "required") && At(s.fields, "required").Arr? ==>
                  forall i :: 0 <= i < |At(s.fields, "required").items| && At(s.fields, "required").items[i].Str? ==>
                    Has(o, At(s.fields, "required").items[i].s))
  {
    var s := SchemaFor(schemas, key).value;
    KeysPassed(o, resourceType, key, s, ExpectedKeys(s).value);
  }

  lemma KeysPassed(o: Fields, resourceType: string, key: string, s: Json, expected: set<string>)
    requires s.Obj? && CheckKeys(o, resourceType, key, s, expected).stage.Passed?
    ensures CheckKeys(o, resourceType, key, s, expected).stage.schema == s
    ensures KeySet(o) <= expected || Truthy(GetOr(s.fields, "additionalProperties", Bool(false)))
    ensures Has(s.fields, "required") && At(s.fields, "required").Arr? ==>
              forall i :: 0 <= i < |At(s.fields, "required").items| && At(s.fields, "required").items[i].Str? ==>
                Has(o, At(s.fields, "required").items[i].s)
  {
    if !Truthy(GetOr(s.fields, "additionalProperties", Bool(false))) {
      assert KeySet(o) - expected == {};
      forall k | k in KeySet(o) ensures k in expected {
        assert k !in KeySet(o) - expected;
      }
    }
  }

  /** Extra keys without `additionalProperties` fail, with the keys. */
  lemma ExtraKeysFail(o: Fields, resourceType: string, key: string, schemas: Fields)
    ensures var found := SchemaFor(schemas, key);
            found.Some? && Truthy(found.value) && ExpectedKeys(found.value).Ok?
            && !(KeySet(o) <= ExpectedKeys(found.value).value)
            && !Truthy(GetOr(found.value.fields, "additionalProperties", Bool(false))) ==>
              CheckSchema(o, resourceType, key, schemas) == Checked({}, Failed(Some(o), ExtraKeys(KeySet(o) - ExpectedKeys(found.value).value)))
  {
    var found := SchemaFor(schemas, key);
    if found.Some? && Truthy(found.value) && ExpectedKeys(found.value).Ok? {
      var s := found.value;
      var expected := ExpectedKeys(s).value;
      assert CheckSchema(o, resourceType, key, schemas) == CheckKeys(o, resourceType, key, s, expected);
      if !(KeySet(o) <= expected) {
        var k :| k in KeySet(o) && k !in expected;
        assert k in KeySet(o) - expected;
      }
    }
  }

  /** The messages logged name each extra key, and only with
      `additionalProperties`. */
  lemma MessagesLogged(o: Fields, resourceType: string, key: string, schemas: Fields)
    ensures var c := CheckSchema(o, resourceType, key, schemas);
            c.messages != {} ==>
              var s := SchemaFor(schemas, key).value;
              && Truthy(GetOr(s.fields, "additionalProperties", Bool(false)))
              && c.messages == set k | k in KeySet(o) - ExpectedKeys(s).value :: ExtraMessage(resourceType, k, At(o, k))
  {
    var found := SchemaFor(schemas, key);
    if found.Some? && Truthy(found.value) && ExpectedKeys(found.value).Ok? {
      var s := found.value;
      assert CheckSchema(o, resourceType, key, schemas) == CheckKeys(o, resourceType, key, s, ExpectedKeys(s).value);
    }
  }

  /** A key compiled once stays compiled, and its first schema is the one
      every later record of that key is checked against. */
  lemma CacheReused(stage: Stage, cache: map<string, Json>, key: string)
    ensures key in cache ==> key in CacheAfter(stage, cache) && CacheAfter(stage, cache)[key] == cache[key]
    ensures stage.Passed? ==> stage.key in CacheAfter(stage, cache)
    ensures stage.Passed? && stage.key in cache ==> CacheAfter(stage, cache) == cache
    ensures CacheAfter(stage, cache).Keys <= cache.Keys + (if stage.Passed? then {stage.key} else {})
  {
  }

  /** Logging a message twice logs it once. */
  lemma LogTwice(logged: seq<string>, msg: string)
    ensures var once := if msg in logged then logged else logged + [msg];
            (if msg in once then once else once + [msg]) == once
  {
  }

  // ---------------------------------------------------------------------
  // directory_reader

  datatype InputFile = InputFile(path: string, isFile: bool, lines: seq<Fields>)

  /** A yielded result, with the path and offset the reader sets. */
  datatype Read = Read(path: string, offset: nat, outcome: Outcome)

  datatype Line = Line(path: string, offset: nat, record: Fields)

  /** The lines of a file, numbered from 0. */
  function FileLines(f: InputFile): (r: seq<Line>)
    ensures |r| == |f.lines|
    ensures forall j :: 0 <= j < |r| ==> r[j] == Line(f.path, j, f.lines[j])
  {
    seq(|f.lines|, j requires 0 <= j < |f.lines| => Line(f.path, j, f.lines[j]))
  }

  /** The lines the reader visits: those of the regular files, in order. */
  function Lines(files: seq<InputFile>): seq<Line>
  {
    if files == [] then []
    else Lines(files[..|files| - 1]) + (if files[|files| - 1].isFile then FileLines(files[|files| - 1]) else [])
  }

  datatype RunState = RunState(yielded: seq<Read>, error: Option<PyError>, cache: map<string, Json>)

  /** One line: validated and yielded, unless a line before it raised. */
  function Step(st: RunState, line: Line, schemas: Fields, conforms: (Json, Json) -> Option<string>): RunState
  {
    if st.error.Some? then st
    else
      var c := Check(line.record, schemas);
      var cache := CacheAfter(c.stage, st.cache);
      match Settle(c, st.cache, conforms)
      case Err(e) => RunState(st.yielded, Some(e), cache)
      case Ok(o) => RunState(st.yielded + [Read(line.path, line.offset, o)], None, cache)
  }

  function Run(lines: seq<Line>, schemas: Fields, cache: map<string, Json>, conforms: (Json, Json) -> Option<string>): RunState
  {
    if lines == [] then RunState([], None, cache)
    else Step(Run(lines[..|lines| - 1], schemas, cache, conforms), lines[|lines| - 1], schemas, conforms)
  }

  /** The results yielded are the visited lines' positions, in order, up to
      the first line that raises. */
  lemma {:induction false} RunPositions(lines: seq<Line>, schemas: Fields, cache: map<string, Json>, conforms: (Json, Json) -> Option<string>)
    ensures var st := Run(lines, schemas, cache, conforms);
            && |st.yielded| <= |lines|
            && (st.error.None? ==> |st.yielded| == |lines|)
            && forall k :: 0 <= k < |st.yielded| ==> st.yielded[k].path == lines[k].path && st.yielded[k].offset == lines[k].offset
  {
    if lines != [] {
      RunPositions(lines[..|lines| - 1], schemas, cache, conforms);
    }
  }

  /** Within a file the offsets count 0, 1, 2, ... */
  lemma {:induction false} LinesNumbered(files: seq<InputFile>, k: nat)
    requires k < |Lines(files)|
    ensures Lines(files)[k].offset == 0 || (k > 0 && Lines(files)[k - 1].path == Lines(files)[k].path
                                           && Lines(files)[k].offset == Lines(files)[k - 1].offset + 1)
  {
    var init := files[..|files| - 1];
    if k < |Lines(init)| {
      LinesNumbered(init, k);
    }
  }

  /** A line after one that raised is not read. */
  lemma {:induction false} RunStops(lines: seq<Line>, more: seq<Line>, schemas: Fields, cache: map<string, Json>, conforms: (Json, Json) -> Option<string>)
    requires Run(lines, schemas, cache, conforms).error.Some?
    ensures Run(lines + more, schemas, cache, conforms) == Run(lines, schemas, cache, conforms)
  {
    if more != [] {
      assert (lines + more)[..|lines + more| - 1] == lines + more[..|more| - 1];
      RunStops(lines, more[..|more| - 1], schemas, cache, conforms);
    } else {
      assert lines + more == lines;
    }
  }

  /** `directory_reader` over the glob's paths with the loaded schemas. */
  method DirectoryReader(v: Validator, files: seq<InputFile>, schemas: Fields, conforms: (Json, Json) -> Option<string>)
    returns (yielded: seq<Read>, error: Option<PyError>)
    requires v.Valid()
    modifies v
    ensures v.Valid()
    ensures var st := Run(Lines(files), schemas, old(v.compiled), conforms);
            yielded == st.yielded && error == st.error && v.compiled == st.cache
  {
    yielded, error := [], None;
    ghost var cache0 := v.compiled;
    var i := 0;
    while i < |files| && error.None?
      invariant 0 <= i <= |files| && v.Valid()
      invariant Run(Lines(files[..i]), schemas, cache0, conforms) == RunState(yielded, error, v.compiled)
    {
      assert files[..i + 1][..i] == files[..i];
      assert Lines(files[..i + 1]) == Lines(files[..i]) + (if files[i].isFile then FileLines(files[i]) else []);
      if files[i].isFile {
        yielded, error := ReadLines(v, files[i], Lines(files[..i]), schemas, conforms, cache0, yielded);
      } else {
        assert Lines(files[..i + 1]) == Lines(files[..i]);
      }
      i := i + 1;
    }
    if i < |files| {
      LinesPrefix(files, i);
      RunStops(Lines(files[..i]), Lines(files)[|Lines(files[..i])|..], schemas, cache0, conforms);
    } else {
      assert files[..i] == files;
    }
  }

  lemma {:induction false} LinesPrefix(files: seq<InputFile>, i: nat)
    requires i <= |files|
    ensures |Lines(files[..i])| <= |Lines(files)|
    ensures Lines(files) == Lines(files[..i]) + Lines(files)[|Lines(files[..i])|..]
    decreases |files| - i
  {
    if i < |files| {
      LinesPrefix(files, i + 1);
      assert files[..i + 1][..i] == files[..i];
    } else {
      assert files[..i] == files;
    }
  }

  /** What one `validate` call on a file's next line does to the run. */
  lemma ReadStep(before: seq<Line>, f: InputFile, offset: nat, schemas: Fields, cache0: map<string, Json>,
                 conforms: (Json, Json) -> Option<string>, st: RunState, r: Result<Outcome>, cache: map<string, Json>)
    requires offset < |f.lines|
    requires Run(before + FileLines(f)[..offset], schemas, cache0, conforms) == st && st.error.None?
    requires r == Settle(Check(f.lines[offset], schemas), st.cache, conforms)
    requires cache == CacheAfter(Check(f.lines[offset], schemas).stage, st.cache)
    ensures Run(before + FileLines(f)[..offset + 1], schemas, cache0, conforms) ==
              if r.Err? then RunState(st.yielded, Some(r.error), cache)
              else RunState(st.yielded + [Read(f.path, offset, r.value)], None, cache)
  {
    var prefix := before + FileLines(f)[..offset + 1];
    assert prefix[..|prefix| - 1] == before + FileLines(f)[..offset];
    assert prefix[|prefix| - 1] == Line(f.path, offset, f.lines[offset]);
    RunLast(prefix, schemas, cache0, conforms);
    StepSettled(st, Line(f.path, offset, f.lines[offset]), schemas, conforms, r, cache);
  }

  lemma RunLast(lines: seq<Line>, schemas: Fields, cache: map<string, Json>, conforms: (Json, Json) -> Option<string>)
    requires lines != []
    ensures Run(lines, schemas, cache, conforms) == Step(Run(lines[..|lines| - 1], schemas, cache, conforms), lines[|lines| - 1], schemas, conforms)
  {
  }

  lemma StepSettled(st: RunState, line: Line, schemas: Fields, conforms: (Json, Json) -> Option<string>, r: Result<Outcome>, cache: map<string, Json>)
    requires st.error.None?
    requires r == Settle(Check(line.record, schemas), st.cache, conforms)
    requires cache == CacheAfter(Check(line.record, schemas).stage, st.cache)
    ensures Step(st, line, schemas, conforms) ==
              if r.Err? then RunState(st.yielded, Some(r.error), cache)
              else RunState(st.yielded + [Read(line.path, line.offset, r.value)], None, cache)
  {
  }

  /** One iteration: validate the line at `offset` and yield its result. */
  method ReadOne(v: Validator, f: InputFile, offset: nat, ghost before: seq<Line>, schemas: Fields,
                 conforms: (Json, Json) -> Option<string>, ghost cache0: map<string, Json>, yielded0: seq<Read>)
    returns (yielded: seq<Read>, error: Option<PyError>)
    requires v.Valid() && offset < |f.lines|
    requires Run(before + FileLines(f)[..offset], schemas, cache0, conforms) == RunState(yielded0, None, v.compiled)
    modifies v
    ensures v.Valid()
    ensures Run(before + FileLines(f)[..offset + 1], schemas, cache0, conforms) == RunState(yielded, error, v.compiled)
  {
    ghost var st := RunState(yielded0, None, v.compiled);
    var r := v.Validate(f.lines[offset], schemas, conforms);
    ReadStep(before, f, offset, schemas, cache0, conforms, st, r, v.compiled);
    match r {
      case Err(e) => yielded, error := yielded0, Some(e);
      case Ok(o) => yielded, error := yielded0 + [Read(f.path, offset, o)], None;
    }
  }

  /** The loop over one file's lines, continuing the run of `before`. */
  method ReadLines(v: Validator, f: InputFile, ghost before: seq<Line>, schemas: Fields, conforms: (Json, Json) -> Option<string>,
                   ghost cache0: map<string, Json>, yielded0: seq<Read>)
    returns (yielded: seq<Read>, error: Option<PyError>)
    requires v.Valid() && f.isFile
    requires Run(before, schemas, cache0, conforms) == RunState(yielded0, None, v.compiled)
    modifies v
    ensures v.Valid()
    ensures Run(before + FileLines(f), schemas, cache0, conforms) == RunState(yielded, error, v.compiled)
  {
    yielded, error := yielded0, None;
    var offset := 0;
    assert before + FileLines(f)[..0] == before;
    while offset < |f.lines| && error.None?
      invariant 0 <= offset <= |f.lines| && v.Valid()
      invariant Run(before + FileLines(f)[..offset], schemas, cache0, conforms) == RunState(yielded, error, v.compiled)
    {
      yielded, error := ReadOne(v, f, offset, before, schemas, conforms, cache0, yielded);
      offset := offset + 1;
    }
    if offset < |f.lines| {
      RunStops(before + FileLines(f)[..offset], FileLines(f)[offset..], schemas, cache0, conforms);
      assert (before + FileLines(f)[..offset]) + FileLines(f)[offset..] == before + FileLines(f);
    } else {
      assert FileLines(f)[..offset] == FileLines(f);
    }
  }
}
