// Inspection of a PFB file's records and the writer that builds one with
// the `pfb` command line tool. The records are given as the sequence the
// Avro reader yields; the commands the writer runs are recorded, not run.

module Pfb {

  import opened Text
  import opened Json

  datatype Relation = Relation(dstName: string, dstId: string)

  /** A PFB record: its entity name, its id and its relations. */
  datatype Record = Record(name: string, id: string, relations: seq<Relation>)

  datatype EdgeSummary = EdgeSummary(src: string, dst: string, count: nat)

  datatype EntitySummary = EntitySummary(name: string, count: nat, relationships: map<string, EdgeSummary>)

  datatype InspectionResults = InspectionResults(
    errors: seq<string>, warnings: seq<string>, info: seq<string>, counts: map<string, EntitySummary>)

  // ---------------------------------------------------------------------
  // Dependency order

  /** The (name, id) pairs the records put in the graph. Only whether a
      pair is there is ever read back: a stored record is a non-empty
      dict, so it is truthy. */
  function Stored(rs: seq<Record>): set<(string, string)>
  {
    if rs == [] then {} else Stored(rs[..|rs| - 1]) + {(rs[|rs| - 1].name, rs[|rs| - 1].id)}
  }

  lemma {:induction false} StoredIff(rs: seq<Record>, name: string, id: string)
    ensures (name, id) in Stored(rs) <==> exists j :: 0 <= j < |rs| && rs[j].name == name && rs[j].id == id
  {
    if rs != [] {
      var p := rs[..|rs| - 1];
      StoredIff(p, name, id);
      if (name, id) in Stored(p) {
        var j :| 0 <= j < |p| && p[j].name == name && p[j].id == id;
        assert rs[j] == p[j];
      }
      forall j | 0 <= j < |p| ensures rs[j] == p[j] { }
    }
  }

  function LinkMessage(obj: Record, r: Relation): string
  {
    r.dstName + "." + r.dstId + " referenced from " + obj.name + "." + obj.id + " not found in Graph"
  }

  /** `check_links`: one message per relation whose target is not in the
      graph. */
  function Missing(obj: Record, rels: seq<Relation>, graph: set<(string, string)>): (r: seq<string>)
    ensures |r| <= |rels|
  {
    if rels == [] then []
    else
      var last := rels[|rels| - 1];
      Missing(obj, rels[..|rels| - 1], graph)
      + (if (last.dstName, last.dstId) in graph then [] else [LinkMessage(obj, last)])
  }

  /** The messages of the first loop: each record is stored before its own
      relations are checked. */
  function LinkErrors(rs: seq<Record>): seq<string>
  {
    if rs == [] then []
    else LinkErrors(rs[..|rs| - 1]) + Missing(rs[|rs| - 1], rs[|rs| - 1].relations, Stored(rs))
  }

  /** Every relation names a record at or before its own. */
  predicate InOrder(rs: seq<Record>)
  {
    forall i, k :: 0 <= i < |rs| && 0 <= k < |rs[i].relations| ==>
      (rs[i].relations[k].dstName, rs[i].relations[k].dstId) in Stored(rs[..i + 1])
  }

  lemma {:induction false} MissingEmpty(obj: Record, rels: seq<Relation>, graph: set<(string, string)>)
    ensures Missing(obj, rels, graph) == [] <==> forall k :: 0 <= k < |rels| ==> (rels[k].dstName, rels[k].dstId) in graph
  {
    if rels != [] {
      var p := rels[..|rels| - 1];
      MissingEmpty(obj, p, graph);
      forall k | 0 <= k < |p| ensures rels[k] == p[k] { }
    }
  }

  /** No "not found" message exactly when the records are in dependency
      order. */
  lemma {:induction false} LinkErrorsEmpty(rs: seq<Record>)
    ensures LinkErrors(rs) == [] <==> InOrder(rs)
  {
    if rs != [] {
      var p := rs[..|rs| - 1];
      var last := rs[|rs| - 1];
      LinkErrorsEmpty(p);
      MissingEmpty(last, last.relations, Stored(rs));
      assert rs[..|rs|] == rs;
      forall i | 0 <= i < |p| ensures p[..i + 1] == rs[..i + 1] && p[i] == rs[i] { }
    }
  }

  /** A record may name itself; naming a later record is an error. */
  lemma ForwardReference()
    ensures LinkErrors([Record("Patient", "p1", [Relation("Patient", "p1")])]) == []
    ensures LinkErrors([Record("Patient", "p1", [Relation("Specimen", "s1")]), Record("Specimen", "s1", [])])
            == [LinkMessage(Record("Patient", "p1", [Relation("Specimen", "s1")]), Relation("Specimen", "s1"))]
  {
    var c := Record("Patient", "p1", [Relation("Patient", "p1")]);
    assert [c][..0] == [] && c.relations[..0] == [];
    assert Stored([c]) == {("Patient", "p1")};
    assert LinkErrors([c]) == Missing(c, c.relations, Stored([c]));
    var a := Record("Patient", "p1", [Relation("Specimen", "s1")]);
    var b := Record("Specimen", "s1", []);
    assert [a, b][..1] == [a] && [a][..0] == [] && a.relations[..0] == [];
    assert Stored([a]) == {("Patient", "p1")};
    assert ("Specimen", "s1") !in Stored([a]) by { assert "Specimen" != "Patient"; }
    assert Missing(a, a.relations, Stored([a])) == [LinkMessage(a, Relation("Specimen", "s1"))];
    assert LinkErrors([a]) == [LinkMessage(a, Relation("Specimen", "s1"))];
    assert LinkErrors([a, b]) == LinkErrors([a]) + Missing(b, [], Stored([a, b]));
  }

  // ---------------------------------------------------------------------
  // Duplicates

  /** The ids seen so far, whatever their name. */
  function SeenIds(rs: seq<Record>): set<string>
  {
    if rs == [] then {} else SeenIds(rs[..|rs| - 1]) + {rs[|rs| - 1].id}
  }

  function DuplicateMessage(obj: Record): string
  {
    "Duplicate " + obj.name + "/" + obj.id
  }

  /** The messages of the second loop: one per record whose id came
      before. */
  function DuplicateErrors(rs: seq<Record>): seq<string>
  {
    if rs == [] then []
    else
      var last := rs[|rs| - 1];
      DuplicateErrors(rs[..|rs| - 1]) + (if last.id in SeenIds(rs[..|rs| - 1]) then [DuplicateMessage(last)] else [])
  }

  /** Each repeated id after its first occurrence is one message. */
  lemma {:induction false} DuplicateCount(rs: seq<Record>)
    ensures |DuplicateErrors(rs)| == |rs| - |SeenIds(rs)|
    ensures |SeenIds(rs)| <= |rs|
  {
    if rs != [] {
      var p := rs[..|rs| - 1];
      DuplicateCount(p);
      if rs[|rs| - 1].id in SeenIds(p) {
        assert SeenIds(rs) == SeenIds(p);
      } else {
        assert |SeenIds(p) + {rs[|rs| - 1].id}| == |SeenIds(p)| + 1;
      }
    }
  }

  lemma {:induction false} SeenIdsIff(rs: seq<Record>, id: string)
    ensures id in SeenIds(rs) <==> exists j :: 0 <= j < |rs| && rs[j].id == id
  {
    if rs != [] {
      var p := rs[..|rs| - 1];
      SeenIdsIff(p, id);
      if id in SeenIds(p) {
        var j :| 0 <= j < |p| && p[j].id == id;
        assert rs[j] == p[j];
      }
      forall j | 0 <= j < |p| ensures rs[j] == p[j] { }
    }
  }

  predicate DistinctIds(rs: seq<Record>)
  {
    forall i, j :: 0 <= i < j < |rs| ==> rs[i].id != rs[j].id
  }

  /** No duplicate message exactly when the ids are distinct. */
  lemma {:induction false} DuplicatesEmpty(rs: seq<Record>)
    ensures DuplicateErrors(rs) == [] <==> DistinctIds(rs)
  {
    if rs != [] {
      var p := rs[..|rs| - 1];
      var last := rs[|rs| - 1];
      DuplicatesEmpty(p);
      SeenIdsIff(p, last.id);
      forall j | 0 <= j < |p| ensures rs[j] == p[j] { }
      if last.id in SeenIds(p) {
        var j :| 0 <= j < |p| && p[j].id == last.id;
        assert rs[j].id == rs[|rs| - 1].id;
      }
    }
  }

  // ---------------------------------------------------------------------
  // Counts

  function WithRelations(rs: seq<Record>): (n: nat)
    ensures n <= |rs|
    ensures n == 0 <==> forall i :: 0 <= i < |rs| ==> rs[i].relations == []
  {
    if rs == [] then 0 else WithRelations(rs[..|rs| - 1]) + (if rs[|rs| - 1].relations != [] then 1 else 0)
  }

  function CountNamed(rs: seq<Record>, n: string): nat
  {
    if rs == [] then 0 else CountNamed(rs[..|rs| - 1], n) + (if rs[|rs| - 1].name == n then 1 else 0)
  }

  function Names(rs: seq<Record>): set<string>
  {
    if rs == [] then {} else Names(rs[..|rs| - 1]) + {rs[|rs| - 1].name}
  }

  /** The relations of all records named `n`, in order. */
  function AllRelations(rs: seq<Record>, n: string): seq<Relation>
  {
    if rs == [] then []
    else AllRelations(rs[..|rs| - 1], n) + (if rs[|rs| - 1].name == n then rs[|rs| - 1].relations else [])
  }

  function DstCount(rels: seq<Relation>, d: string): nat
  {
    if rels == [] then 0 else DstCount(rels[..|rels| - 1], d) + (if rels[|rels| - 1].dstName == d then 1 else 0)
  }

  function Dsts(rels: seq<Relation>): set<string>
  {
    if rels == [] then {} else Dsts(rels[..|rels| - 1]) + {rels[|rels| - 1].dstName}
  }

  /** The edge summaries of an entity whose relations are `rels`. */
  function EdgeSummaries(n: string, rels: seq<Relation>): map<string, EdgeSummary>
  {
    map d | d in Dsts(rels) :: EdgeSummary(n, d, DstCount(rels, d))
  }

  function Summary(rs: seq<Record>, n: string): EntitySummary
  {
    EntitySummary(n, CountNamed(rs, n), EdgeSummaries(n, AllRelations(rs, n)))
  }

  function Counts(rs: seq<Record>): map<string, EntitySummary>
  {
    map n | n in Names(rs) :: Summary(rs, n)
  }

  /** An entity is counted exactly when a record has its name. */
  lemma {:induction false} CountedIff(rs: seq<Record>, n: string)
    ensures CountNamed(rs, n) > 0 <==> n in Names(rs)
    ensures n !in Names(rs) ==> AllRelations(rs, n) == []
  {
    if rs != [] {
      CountedIff(rs[..|rs| - 1], n);
    }
  }

  /** An edge is counted exactly when a relation has its destination. */
  lemma {:induction false} EdgeCountedIff(rels: seq<Relation>, d: string)
    ensures DstCount(rels, d) > 0 <==> d in Dsts(rels)
  {
    if rels != [] {
      EdgeCountedIff(rels[..|rels| - 1], d);
    }
  }

  /** One more relation bumps the count of its destination. */
  lemma EdgeSummariesSnoc(n: string, rels: seq<Relation>, x: Relation)
    ensures var m := EdgeSummaries(n, rels);
            EdgeSummaries(n, rels + [x])
            == m[x.dstName := EdgeSummary(n, x.dstName, (if x.dstName in m then m[x.dstName].count else 0) + 1)]
  {
    var rels' := rels + [x];
    assert rels'[..|rels'| - 1] == rels;
    EdgeCountedIff(rels, x.dstName);
  }

  /** One more record changes only the summary of its own name. */
  lemma CountsSnoc(rs: seq<Record>, x: Record)
    ensures Counts(rs + [x]) == Counts(rs)[x.name := Summary(rs + [x], x.name)]
    ensures Summary(rs + [x], x.name)
            == EntitySummary(x.name, CountNamed(rs, x.name) + 1, EdgeSummaries(x.name, AllRelations(rs, x.name) + x.relations))
  {
    var rs' := rs + [x];
    assert rs'[..|rs'| - 1] == rs;
    assert Names(rs') == Names(rs) + {x.name};
    forall n | n in Names(rs') && n != x.name
      ensures Summary(rs', n) == Summary(rs, n)
    {
      assert CountNamed(rs', n) == CountNamed(rs, n);
      assert AllRelations(rs', n) == AllRelations(rs, n);
    }
  }

  /** The summary a record of name `n` starts from: a fresh one before the
      first record of that name. */
  lemma SummaryBefore(rs: seq<Record>, n: string)
    ensures (if n in Counts(rs) then Counts(rs)[n] else EntitySummary(n, 0, map[])) == Summary(rs, n)
  {
    CountedIff(rs, n);
    assert EdgeSummaries(n, []) == map[];
  }

  // ---------------------------------------------------------------------
  // inspect_pfb

  const NoRelationships := "No records have relationships."

  /** What `inspect_pfb` returns for records it accepts. */
  function Inspection(rs: seq<Record>): InspectionResults
  {
    InspectionResults(
      LinkErrors(rs) + DuplicateErrors(rs),
      if WithRelations(rs) == 0 then [NoRelationships] else [],
      ["'Records with relationships': " + NatToString(WithRelations(rs)), "'Records': " + NatToString(|rs|)],
      Counts(rs))
  }

  /** `inspect_pfb` over the records read from the file. */
  method InspectPfb(records: seq<Record>) returns (r: Result<InspectionResults>)
    ensures |records| <= 1 ==> r == Err(AssertionError("Should have more than just metadata"))
    ensures |records| > 1 ==> r == Ok(Inspection(records))
  {
    var errors := LinkLoop(records);
    var duplicates := DuplicateLoop(records);
    errors := errors + duplicates;
    var withRelations := WithRelations(records);
    var info := ["'Records with relationships': " + NatToString(withRelations), "'Records': " + NatToString(|records|)];
    if |records| <= 1 {
      return Err(AssertionError("Should have more than just metadata"));
    }
    var warnings: seq<string> := [];
    if withRelations == 0 {
      warnings := warnings + [NoRelationships];
    }
    var counts := CountLoop(records);
    assert errors == Inspection(records).errors;
    assert warnings == Inspection(records).warnings;
    assert info == Inspection(records).info;
    assert counts == Inspection(records).counts;
    return Ok(InspectionResults(errors, warnings, info, counts));
  }

  /** The first loop: store each record, then check its relations. */
  method LinkLoop(records: seq<Record>) returns (errors: seq<string>)
    ensures errors == LinkErrors(records)
  {
    errors := [];
    var graph: set<(string, string)> := {};
    var i := 0;
    while i < |records|
      invariant 0 <= i <= |records|
      invariant graph == Stored(records[..i])
      invariant errors == LinkErrors(records[..i])
    {
      var obj := records[i];
      assert records[..i + 1][..i] == records[..i];
      graph := graph + {(obj.name, obj.id)};
      var j := 0;
      var found: seq<string> := [];
      while j < |obj.relations|
        invariant 0 <= j <= |obj.relations|
        invariant found == Missing(obj, obj.relations[..j], graph)
      {
        var rel := obj.relations[j];
        assert obj.relations[..j + 1][..j] == obj.relations[..j];
        if (rel.dstName, rel.dstId) !in graph {
          found := found + [LinkMessage(obj, rel)];
        }
        j := j + 1;
      }
      assert obj.relations[..j] == obj.relations;
      errors := errors + found;
      i := i + 1;
    }
    assert records[..i] == records;
  }

  /** The second loop, over ids. */
  method DuplicateLoop(records: seq<Record>) returns (errors: seq<string>)
    ensures errors == DuplicateErrors(records)
  {
    errors := [];
    var seen: set<string> := {};
    var i := 0;
    while i < |records|
      invariant 0 <= i <= |records|
      invariant seen == SeenIds(records[..i])
      invariant errors == DuplicateErrors(records[..i])
    {
      var obj := records[i];
      assert records[..i + 1][..i] == records[..i];
      if obj.id in seen {
        errors := errors + [DuplicateMessage(obj)];
      }
      seen := seen + {obj.id};
      i := i + 1;
    }
    assert records[..i] == records;
  }

  /** The last loop: a summary per name, an edge summary per destination. */
  method CountLoop(records: seq<Record>) returns (counts: map<string, EntitySummary>)
    ensures counts == Counts(records)
  {
    counts := map[];
    var i := 0;
    while i < |records|
      invariant 0 <= i <= |records|
      invariant counts == Counts(records[..i])
    {
      var obj := records[i];
      assert records[..i + 1] == records[..i] + [obj];
      SummaryBefore(records[..i], obj.name);
      var summary := if obj.name in counts then counts[obj.name] else EntitySummary(obj.name, 0, map[]);
      var edges := CountEdges(obj.name, summary.relationships, AllRelations(records[..i], obj.name), obj.relations);
      CountsSnoc(records[..i], obj);
      counts := counts[obj.name := EntitySummary(obj.name, summary.count + 1, edges)];
      i := i + 1;
    }
    assert records[..i] == records;
  }

  /** The inner loop: one more edge per relation. */
  method CountEdges(n: string, edges: map<string, EdgeSummary>, ghost before: seq<Relation>, rels: seq<Relation>)
    returns (r: map<string, EdgeSummary>)
    requires edges == EdgeSummaries(n, before)
    ensures r == EdgeSummaries(n, before + rels)
  {
    r := edges;
    var j := 0;
    assert before + rels[..0] == before;
    while j < |rels|
      invariant 0 <= j <= |rels|
      invariant r == EdgeSummaries(n, before + rels[..j])
    {
      var rel := rels[j];
      EdgeSummariesSnoc(n, before + rels[..j], rel);
      assert before + rels[..j + 1] == (before + rels[..j]) + [rel];
      var edge := if rel.dstName in r then r[rel.dstName] else EdgeSummary(n, rel.dstName, 0);
      r := r[rel.dstName := edge.(count := edge.count + 1)];
      j := j + 1;
    }
    assert rels[..j] == rels;
  }

  // ---------------------------------------------------------------------
  // SimplePFBWriter

  /** The order entity files are added in. */
  const DefaultDependencyOrder: seq<string> :=
    ["_definitions.yaml", "_terms.yaml", "Program", "Project", "ResearchStudy", "Patient", "ResearchSubject",
     "Substance", "Specimen", "Encounter", "Observation", "Condition", "Medication", "MedicationAdministration",
     "DocumentReference", "Task", "FamilyMemberHistory", "BodyStructure"]

  /** A command the writer runs. */
  datatype Command =
    | FromDict(output: string, schema: string)
    | Add(input: string, output: string)

  function CommandLine(c: Command): string
  {
    match c
    case FromDict(output, schema) => "pfb from -o " + output + " dict " + schema
    case Add(input, output) => "pfb add -i " + input + " " + output
  }

  /** The first file whose path holds `<entry>.ndjson`. */
  function FirstMatch(files: seq<string>, entry: string): (r: Option<string>)
    ensures r.Some? ==> r.value in files && Contains(r.value, entry + ".ndjson")
    ensures r.None? <==> forall i :: 0 <= i < |files| ==> !Contains(files[i], entry + ".ndjson")
  {
    if files == [] then None
    else if Contains(files[0], entry + ".ndjson") then Some(files[0])
    else FirstMatch(files[1..], entry)
  }

  /** The files `transform_directory` writes: at most one per entry of the
      order, in that order. */
  function WriteOrder(order: seq<string>, files: seq<string>): (r: seq<string>)
    ensures |r| <= |order|
    ensures forall i :: 0 <= i < |r| ==> r[i] in files
  {
    if order == [] then []
    else
      var m := FirstMatch(files, order[|order| - 1]);
      WriteOrder(order[..|order| - 1], files) + (if m.Some? then [m.value] else [])
  }

  class SimplePfbWriter {
    var schemaPath: string
    var outputPath: string
    var schemaWritten: bool
    var dependencyOrder: seq<string>
    /** The command lines run so far, in order. */
    var commands: seq<Command>

    /** Data is added only once the schema is written, and every schema
        command writes this writer's schema to its output. */
    predicate Valid()
      reads this
    {
      && (schemaWritten <==> commands != [])
      && (commands != [] ==> commands[0] == FromDict(outputPath, schemaPath))
      && (forall i :: 0 <= i < |commands| && commands[i].FromDict? ==> commands[i] == FromDict(outputPath, schemaPath))
    }

    constructor (schemaPath: string, outputPath: string, dependencyOrder: seq<string>)
      ensures Valid() && commands == [] && !schemaWritten
      ensures this.schemaPath == schemaPath && this.outputPath == outputPath
      ensures this.dependencyOrder == dependencyOrder
    {
      this.schemaPath := schemaPath;
      this.outputPath := outputPath;
      this.schemaWritten := false;
      this.dependencyOrder := dependencyOrder;
      this.commands := [];
    }

    /** `write_schema`: creates the file from the schema, whether or not it
        was written before. */
    method WriteSchema()
      requires Valid()
      modifies this
      ensures Valid() && schemaWritten
      ensures commands == old(commands) + [FromDict(outputPath, schemaPath)]
      ensures schemaPath == old(schemaPath) && outputPath == old(outputPath) && dependencyOrder == old(dependencyOrder)
    {
      schemaWritten := true;
      commands := commands + [FromDict(outputPath, schemaPath)];
    }

    /** `write`: the schema first if it is not written yet, then the file. */
    method Write(file: string)
      requires Valid()
      modifies this
      ensures Valid() && schemaWritten
      ensures commands == old(commands) + SchemaFirst(old(schemaWritten), outputPath, schemaPath) + [Add(file, outputPath)]
      ensures schemaPath == old(schemaPath) && outputPath == old(outputPath) && dependencyOrder == old(dependencyOrder)
    {
      if !schemaWritten {
        WriteSchema();
      }
      commands := commands + [Add(file, outputPath)];
    }

    /** `transform_directory` over the `*.ndjson` files of the directory. */
    method TransformDirectory(files: seq<string>)
      requires Valid()
      modifies this
      ensures Valid()
      ensures var order := WriteOrder(dependencyOrder, files);
              commands == old(commands) + SchemaFirst(old(schemaWritten) || order == [], outputPath, schemaPath)
                          + AddAll(order, outputPath)
      ensures schemaPath == old(schemaPath) && outputPath == old(outputPath) && dependencyOrder == old(dependencyOrder)
    {
      var order := WriteOrderOf(dependencyOrder, files);
      ghost var before, written := commands, schemaWritten;
      var i := 0;
      while i < |order|
        invariant 0 <= i <= |order|
        invariant Valid()
        invariant schemaPath == old(schemaPath) && outputPath == old(outputPath) && dependencyOrder == old(dependencyOrder)
        invariant schemaWritten == (written || i > 0)
        invariant commands == before + SchemaFirst(written || i == 0, outputPath, schemaPath) + AddAll(order[..i], outputPath)
      {
        ghost var now := commands;
        Write(order[i]);
        WriteStep(before, now, commands, written, i, order, outputPath, schemaPath);
        i := i + 1;
      }
      assert order[..i] == order;
    }
  }

  /** The schema command `write` runs first, unless the schema is written. */
  function SchemaFirst(written: bool, output: string, schema: string): seq<Command>
  {
    if written then [] else [FromDict(output, schema)]
  }

  /** An `add` command per file, in order. */
  function AddAll(files: seq<string>, output: string): (r: seq<Command>)
    ensures |r| == |files|
  {
    if files == [] then [] else AddAll(files[..|files| - 1], output) + [Add(files[|files| - 1], output)]
  }

  /** One `write` in the loop of `transform_directory`. */
  lemma WriteStep(before: seq<Command>, now: seq<Command>, after: seq<Command>, written: bool, i: nat,
                  order: seq<string>, output: string, schema: string)
    requires i < |order|
    requires now == before + SchemaFirst(written || i == 0, output, schema) + AddAll(order[..i], output)
    requires after == now + SchemaFirst(written || i > 0, output, schema) + [Add(order[i], output)]
    ensures after == before + SchemaFirst(written || i + 1 == 0, output, schema) + AddAll(order[..i + 1], output)
  {
    assert order[..i + 1][..i] == order[..i];
    if i == 0 {
      assert order[..0] == [];
    }
  }

  /** The loop building the write order. */
  method WriteOrderOf(order: seq<string>, files: seq<string>) returns (r: seq<string>)
    ensures r == WriteOrder(order, files)
  {
    r := [];
    var i := 0;
    while i < |order|
      invariant 0 <= i <= |order|
      invariant r == WriteOrder(order[..i], files)
    {
      assert order[..i + 1][..i] == order[..i];
      var file := FirstMatchOf(files, order[i]);
      if file.Some? {
        r := r + [file.value];
      }
      i := i + 1;
    }
    assert order[..i] == order;
  }

  /** `next(iter([n for n in files if ...]), None)` */
  method FirstMatchOf(files: seq<string>, entry: string) returns (r: Option<string>)
    ensures r == FirstMatch(files, entry)
  {
    var i := 0;
    while i < |files|
      invariant 0 <= i <= |files|
      invariant FirstMatch(files, entry) == FirstMatch(files[i..], entry)
    {
      if Contains(files[i], entry + ".ndjson") {
        return Some(files[i]);
      }
      assert files[i..][1..] == files[i + 1..];
      i := i + 1;
    }
    return None;
  }
}
