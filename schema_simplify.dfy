// `_simplify_schemas` end to end, in the two pass orders of the repository:
// iceberg_tools/schema/gen3.py deletes the vertices outside the dependency
// order first and has no pluck pass; iceberg_tools/schema/simplified.py
// runs the passes on every vertex, plucks nested properties right after
// the renames (so the pluck sees the properties before the reference,
// identifier and embedded-type passes rewrite them), and deletes the
// unordered vertices only at the end.  Every pass rewrites the schemas in
// place, one after the other; an exception leaves `_simplify_schemas`
// at once, so the model is a chain of `Result`s.
module SchemaSimplify {
  import opened Text
  import opened Json
  import SchemaPasses
  import SchemaRewrites
  import SchemaLinks
  import SchemaConcepts
  import SchemaPluck
  import SchemaOutput

  /** The entries of the Gen3 configuration `_simplify_schemas` reads.
      `_add_extensions` fetches extension definitions over HTTP; here it is
      the rewrite `extension` it makes of one schema. */
  datatype Config = Config(
    categories: Fields,
    ignored: seq<string>,
    order: seq<string>,
    extra: Fields,
    renames: seq<(string, string)>,
    limitLinks: Fields,
    nestedObjects: Fields,
    extension: Fields -> Result<Fields>)

  /** A pass on one schema stored as a value: a vertex that is not a dict
      cannot be rewritten. */
  function Lift(pass: Fields -> Result<Fields>, schema: Json): (r: Result<Json>)
    ensures r.Ok? <==> schema.Obj? && pass(schema.fields).Ok?
    ensures r.Ok? ==> r.value == Obj(pass(schema.fields).value)
  {
    if !schema.Obj? then Err(TypeError("schema is not a dict"))
    else
      var s :- pass(schema.fields);
      Ok(Obj(s))
  }

  /** Every value is a dict. */
  predicate AllObj(schemas: Fields)
  {
    forall i :: 0 <= i < |schemas| ==> schemas[i].1.Obj?
  }

  /** `for schema in schemas.values(): <pass>`: each vertex rewritten where
      it stands, and the first failure ends the pass. */
  function Each(pass: Fields -> Result<Fields>, schemas: Fields): (r: Result<Fields>)
    ensures r.Ok? <==> forall i :: 0 <= i < |schemas| ==> Lift(pass, schemas[i].1).Ok?
    ensures r.Ok? ==> Keys(r.value) == Keys(schemas) && AllObj(r.value)
    ensures r.Ok? ==> forall i :: 0 <= i < |schemas| ==> r.value[i] == (schemas[i].0, Lift(pass, schemas[i].1).value)
  {
    var r := MapValuesSpec(schemas, (k: string, v: Json) => Lift(pass, v));
    if r.Ok? then MapValuesKeys(schemas, (k: string, v: Json) => Lift(pass, v)); r else r
  }

  /** The passes in turn, each over every schema. */
  function Run(passes: seq<Fields -> Result<Fields>>, schemas: Fields): (r: Result<Fields>)
    ensures r.Ok? ==> Keys(r.value) == Keys(schemas)
    ensures r.Ok? && (passes != [] || AllObj(schemas)) ==> AllObj(r.value)
    decreases |passes|
  {
    if passes == [] then Ok(schemas)
    else
      var s :- Each(passes[0], schemas);
      Run(passes[1..], s)
  }

  /** The passes before the pluck: lines 70-74 of simplified.py. */
  function Prepared(c: Config): seq<Fields -> Result<Fields>>
  {
    [s => SchemaPasses.RemoveRequired(s),
     s => SchemaRewrites.EnsureDescription(s),
     s => SchemaRewrites.AddExtra(c.extra, s),
     s => SchemaRewrites.Rename(c.renames, s)]
  }

  /** Every pass after the pluck, from the scaffolding to the embedded types
      rendered as strings; `guardItems` tells the two versions of
      `_simplify_identifiers` apart. */
  function Finished(c: Config, guardItems: bool): seq<Fields -> Result<Fields>>
  {
    [s => SchemaRewrites.Scaffold(c.categories, s),
     c.extension,
     s => SchemaLinks.SimplifyReferences(s, c.order, c.limitLinks),
     s => SchemaPasses.RemoveIgnored(c.ignored, s),
     s => SchemaRewrites.SimplifyIdentifiers(guardItems, s),
     s => SchemaConcepts.CodeableConcepts(s),
     s => SchemaConcepts.Quantities(s),
     s => SchemaConcepts.EmbeddedTypes(s)]
  }

  /** The fixture files `_add_gen3_static_dependencies` loads, by name. */
  const StaticNames: seq<string> := ["_definitions.yaml", "_terms.yaml", "_program.yaml", "_project.yaml",
                                     "_core_metadata_collection.yaml", "_settings.yaml"]

  /** The named fixtures stored in turn; `fixtures` stands for the parsed
      files, and one that is missing is the error opening it raises. */
  function StaticDependencies(fixtures: Fields, schemas: Fields, names: seq<string>): (r: Result<Fields>)
    ensures r.Ok? <==> forall n :: n in names ==> Has(fixtures, n)
    ensures r.Ok? ==> forall k :: Has(r.value, k) <==> Has(schemas, k) || k in names
    ensures r.Ok? ==> forall k :: k in names ==> Get(r.value, k) == Get(fixtures, k)
    ensures r.Ok? ==> forall k :: k !in names ==> Get(r.value, k) == Get(schemas, k)
    ensures r.Ok? && UniqueKeys(schemas) ==> UniqueKeys(r.value)
    decreases |names|
  {
    if names == [] then Ok(schemas)
    else
      var n := names[|names| - 1];
      var s :- StaticDependencies(fixtures, schemas, names[..|names| - 1]);
      assert forall k :: k in names <==> k in names[..|names| - 1] || k == n;
      match Get(fixtures, n)
      case None => Err(FileNotFoundError(n))
      case Some(v) => Ok(Put(s, n, v))
  }

  /** `_add_gen3_static_dependencies(gen3_fixtures, schemas)` */
  method AddGen3StaticDependencies(fixtures: Fields, schemas: Fields, names: seq<string>) returns (r: Result<Fields>)
    ensures r == StaticDependencies(fixtures, schemas, names)
  {
    var s := schemas;
    var i := 0;
    while i < |names|
      invariant 0 <= i <= |names|
      invariant StaticDependencies(fixtures, schemas, names[..i]) == Ok(s)
    {
      var n := names[i];
      assert names[..i + 1][..i] == names[..i];
      match Get(fixtures, n)
      case None =>
        StaticFails(fixtures, schemas, names, i + 1);
        return Err(FileNotFoundError(n));
      case Some(v) =>
        s := Put(s, n, v);
      i := i + 1;
    }
    assert names[..i] == names;
    r := Ok(s);
  }

  /** A fixture missing among the first `i` names fails the whole step. */
  lemma {:induction false} StaticFails(fixtures: Fields, schemas: Fields, names: seq<string>, i: nat)
    requires i <= |names| && StaticDependencies(fixtures, schemas, names[..i]).Err?
    ensures StaticDependencies(fixtures, schemas, names) == StaticDependencies(fixtures, schemas, names[..i])
    decreases |names| - i
  {
    if i < |names| {
      assert names[..i + 1][..i] == names[..i];
      StaticFails(fixtures, schemas, names, i + 1);
    } else {
      assert names[..i] == names;
    }
  }

  /** `_simplify_schemas` of gen3.py, for the pass lists `early` and `late`:
      the unordered vertices deleted, the passes, the static dependencies,
      the completed order and the re-keyed output. */
  function Gen3Pipeline(early: seq<Fields -> Result<Fields>>, late: seq<Fields -> Result<Fields>>,
                        order: seq<string>, fixtures: Fields, schemas: Fields): Result<(Fields, seq<string>)>
  {
    var kept := SchemaPasses.Without(schemas, SchemaOutput.Unordered(schemas, order));
    var s1 :- Run(early, kept);
    var s2 :- Run(late, s1);
    var s3 :- StaticDependencies(fixtures, s2, StaticNames);
    Ok(SchemaOutput.Ordered(s3, order))
  }

  /** `_simplify_schemas` of simplified.py, for the pass lists `early` and
      `late`: the pluck in between, and the unordered vertices deleted after
      every pass. */
  function PfbPipeline(early: seq<Fields -> Result<Fields>>, late: seq<Fields -> Result<Fields>>, nestedObjects: Fields,
                       order: seq<string>, fixtures: Fields, schemas: Fields): Result<(Fields, seq<string>)>
  {
    var s1 :- Run(early, schemas);
    var s2 :- SchemaPluck.PluckAll(s1, nestedObjects, 0);
    var s3 :- Run(late, s2);
    var kept := SchemaPasses.Without(s3, SchemaOutput.Unordered(s3, order));
    var s4 :- StaticDependencies(fixtures, kept, StaticNames);
    Ok(SchemaOutput.Ordered(s4, order))
  }

  /** gen3.py's `_simplify_schemas(gen3_config, gen3_fixtures, schemas)`. */
  function SimplifyForGen3(c: Config, fixtures: Fields, schemas: Fields): Result<(Fields, seq<string>)>
  {
    Gen3Pipeline(Prepared(c), Finished(c, false), c.order, fixtures, schemas)
  }

  /** simplified.py's `_simplify_schemas(gen3_config, gen3_fixtures, schemas)`. */
  function SimplifyForPfb(c: Config, fixtures: Fields, schemas: Fields): Result<(Fields, seq<string>)>
  {
    PfbPipeline(Prepared(c), Finished(c, true), c.nestedObjects, c.order, fixtures, schemas)
  }

  // ---------------------------------------------------------------------
  // What the two orders promise

  /** A pass that agrees with `q` wherever `q` succeeds. */
  ghost predicate Agrees(p: Fields -> Result<Fields>, q: Fields -> Result<Fields>)
  {
    forall x :: q(x).Ok? ==> p(x) == q(x)
  }

  lemma EachAgrees(p: Fields -> Result<Fields>, q: Fields -> Result<Fields>, schemas: Fields)
    requires Agrees(p, q) && Each(q, schemas).Ok?
    ensures Each(p, schemas) == Each(q, schemas)
  {
    forall i | 0 <= i < |schemas| ensures Lift(p, schemas[i].1) == Lift(q, schemas[i].1) {
      assert q(schemas[i].1.fields).Ok?;
    }
    assert Each(p, schemas).Ok?;
    var a := Each(p, schemas).value;
    var b := Each(q, schemas).value;
    assert |a| == |Keys(a)| == |Keys(b)| == |b|;
    assert forall i :: 0 <= i < |a| ==> a[i] == b[i];
    assert a == b;
  }

  /** Pass lists that agree pass by pass give the same schemas wherever the
      second succeeds. */
  lemma {:induction false} RunAgrees(ps: seq<Fields -> Result<Fields>>, qs: seq<Fields -> Result<Fields>>, schemas: Fields)
    requires |ps| == |qs| && forall j :: 0 <= j < |ps| ==> Agrees(ps[j], qs[j])
    requires Run(qs, schemas).Ok?
    ensures Run(ps, schemas) == Run(qs, schemas)
    decreases |ps|
  {
    if ps != [] {
      EachAgrees(ps[0], qs[0], schemas);
      var s := Each(qs[0], schemas).value;
      assert forall j :: 0 <= j < |ps[1..]| ==> ps[1..][j] == ps[j + 1] && qs[1..][j] == qs[j + 1];
      RunAgrees(ps[1..], qs[1..], s);
    }
  }

  /** A vertex the first passes leave alone and the next one raises on
      fails the whole list. */
  lemma EarlyFails(early: seq<Fields -> Result<Fields>>, schemas: Fields, k: string, x: Fields)
    requires |early| >= 2 && Get(schemas, k) == Some(Obj(x))
    requires early[0](x).Ok? ==> early[0](x) == Ok(x)
    requires early[1](x).Err?
    ensures Run(early, schemas).Err?
  {
    var i :| 0 <= i < |schemas| && schemas[i] == (k, Obj(x));
    if Each(early[0], schemas).Ok? {
      var s1 := Each(early[0], schemas).value;
      assert s1[i] == (k, Obj(x));
      assert early[1..][0] == early[1];
      assert Lift(early[1], s1[i].1).Err?;
    }
  }

  /** What survives `Without` keeps its value. */
  lemma {:induction false} WithoutKeeps(f: Fields, ds: seq<string>, k: string)
    requires k !in ds
    ensures Get(SchemaPasses.Without(f, ds), k) == Get(f, k)
  {
    if f != [] {
      WithoutKeeps(f[1..], ds, k);
    }
  }

  /** Only the keys of `f` matter to `Without`. */
  lemma {:induction false} WithoutSame(f: Fields, ds: seq<string>, es: seq<string>)
    requires forall k :: k in Keys(f) ==> (k in ds <==> k in es)
    ensures SchemaPasses.Without(f, ds) == SchemaPasses.Without(f, es)
  {
    if f != [] {
      assert Keys(f) == [f[0].0] + Keys(f[1..]);
      WithoutSame(f[1..], ds, es);
    }
  }

  lemma {:induction false} WithoutSetAt(f: Fields, ds: seq<string>, k: string, v: Json)
    requires k in ds && Has(f, k)
    ensures SchemaPasses.Without(SetAt(f, k, v), ds) == SchemaPasses.Without(f, ds)
  {
    assert Keys(f) == [f[0].0] + Keys(f[1..]);
    if f[0].0 != k {
      var r := SetAt(f, k, v);
      assert r[0] == f[0] && r[1..] == SetAt(f[1..], k, v);
      WithoutSetAt(f[1..], ds, k, v);
    } else {
      assert SetAt(f, k, v)[1..] == f[1..];
    }
  }

  lemma {:induction false} WithoutAppend(f: Fields, ds: seq<string>, k: string, v: Json)
    requires k in ds
    ensures SchemaPasses.Without(f + [(k, v)], ds) == SchemaPasses.Without(f, ds)
  {
    if f == [] {
      assert SchemaPasses.Without([(k, v)][1..], ds) == [];
    } else {
      assert (f + [(k, v)])[0] == f[0] && (f + [(k, v)])[1..] == f[1..] + [(k, v)];
      WithoutAppend(f[1..], ds, k, v);
    }
  }

  /** An unordered vertex, stored or replaced, is deleted before any pass of
      gen3.py runs. */
  lemma KeptWithout(schemas: Fields, order: seq<string>, k: string, v: Json)
    requires k !in order
    ensures var s := Put(schemas, k, v);
            SchemaPasses.Without(s, SchemaOutput.Unordered(s, order)) ==
            SchemaPasses.Without(schemas, SchemaOutput.Unordered(schemas, order))
  {
    var s := Put(schemas, k, v);
    var u := SchemaOutput.Unordered(s, order);
    assert k in u;
    if Has(schemas, k) {
      WithoutSetAt(schemas, u, k, v);
    } else {
      WithoutAppend(schemas, u, k, v);
    }
    WithoutSame(schemas, u, SchemaOutput.Unordered(schemas, order));
  }

  /** gen3.py never looks at a vertex outside the dependency order: adding
      or replacing one leaves the result, error or output, unchanged. */
  lemma Gen3IgnoresUnordered(early: seq<Fields -> Result<Fields>>, late: seq<Fields -> Result<Fields>>,
                             order: seq<string>, fixtures: Fields, schemas: Fields, k: string, v: Json)
    requires k !in order
    ensures Gen3Pipeline(early, late, order, fixtures, Put(schemas, k, v)) == Gen3Pipeline(early, late, order, fixtures, schemas)
  {
    KeptWithout(schemas, order, k, v);
  }

  /** A vertex that reaches the output: one of the dependency order, or a
      static dependency. */
  predicate Kept(schemas: Fields, order: seq<string>, k: string)
  {
    (Has(schemas, k) && k in order) || k in StaticNames
  }

  /** The output of gen3.py's order: the completed order starts with the
      dependency order, and the output names are those of the ordered
      vertices and the static dependencies. */
  lemma Gen3Names(early: seq<Fields -> Result<Fields>>, late: seq<Fields -> Result<Fields>>,
                  order: seq<string>, fixtures: Fields, schemas: Fields, n: string)
    requires Gen3Pipeline(early, late, order, fixtures, schemas).Ok?
    ensures var r := Gen3Pipeline(early, late, order, fixtures, schemas).value;
            |r.1| >= |order| && r.1[..|order|] == order &&
            (Has(r.0, n) <==> exists k :: Kept(schemas, order, k) && SchemaOutput.OutputName(k) == n)
  {
    var kept := SchemaPasses.Without(schemas, SchemaOutput.Unordered(schemas, order));
    var s2 := Run(late, Run(early, kept).value).value;
    var s3 := StaticDependencies(fixtures, s2, StaticNames).value;
    forall k ensures Has(s3, k) <==> Kept(schemas, order, k) {
      SchemaOutput.Dropped(schemas, order, k);
    }
    SchemaOutput.OrderedNames(s3, order, n);
  }

  /** The output of simplified.py's order has the same names: every pass,
      the pluck included, keeps the vertices, and the unordered ones are
      deleted at the end. */
  lemma PfbNames(early: seq<Fields -> Result<Fields>>, late: seq<Fields -> Result<Fields>>, nestedObjects: Fields,
                 order: seq<string>, fixtures: Fields, schemas: Fields, n: string)
    requires PfbPipeline(early, late, nestedObjects, order, fixtures, schemas).Ok?
    ensures var r := PfbPipeline(early, late, nestedObjects, order, fixtures, schemas).value;
            |r.1| >= |order| && r.1[..|order|] == order &&
            (Has(r.0, n) <==> exists k :: Kept(schemas, order, k) && SchemaOutput.OutputName(k) == n)
  {
    var s1 := Run(early, schemas).value;
    var s3 := Run(late, SchemaPluck.PluckAll(s1, nestedObjects, 0).value).value;
    var kept := SchemaPasses.Without(s3, SchemaOutput.Unordered(s3, order));
    var s4 := StaticDependencies(fixtures, kept, StaticNames).value;
    forall k ensures Has(s4, k) <==> Kept(schemas, order, k) {
      SchemaOutput.Dropped(s3, order, k);
    }
    SchemaOutput.OrderedNames(s4, order, n);
  }

  /** A vertex outside the dependency order that the early passes cannot
      take fails simplified.py's order, and changes nothing in gen3.py's. */
  lemma UnorderedFailure(early: seq<Fields -> Result<Fields>>, late: seq<Fields -> Result<Fields>>, nestedObjects: Fields,
                         order: seq<string>, fixtures: Fields, schemas: Fields, k: string, x: Fields)
    requires |early| >= 2 && k !in order && UniqueKeys(schemas)
    requires early[0](x).Ok? ==> early[0](x) == Ok(x)
    requires early[1](x).Err?
    ensures PfbPipeline(early, late, nestedObjects, order, fixtures, Put(schemas, k, Obj(x))).Err?
    ensures Gen3Pipeline(early, late, order, fixtures, Put(schemas, k, Obj(x))) == Gen3Pipeline(early, late, order, fixtures, schemas)
  {
    EarlyFails(early, Put(schemas, k, Obj(x)), k, x);
    Gen3IgnoresUnordered(early, late, order, fixtures, schemas, k, Obj(x));
  }

  /** The same vertex inside the dependency order fails both. */
  lemma OrderedFailure(early: seq<Fields -> Result<Fields>>, late: seq<Fields -> Result<Fields>>, nestedObjects: Fields,
                       order: seq<string>, fixtures: Fields, schemas: Fields, k: string, x: Fields)
    requires |early| >= 2 && k in order && Get(schemas, k) == Some(Obj(x))
    requires early[0](x).Ok? ==> early[0](x) == Ok(x)
    requires early[1](x).Err?
    ensures PfbPipeline(early, late, nestedObjects, order, fixtures, schemas).Err?
    ensures Gen3Pipeline(early, late, order, fixtures, schemas).Err?
  {
    var kept := SchemaPasses.Without(schemas, SchemaOutput.Unordered(schemas, order));
    WithoutKeeps(schemas, SchemaOutput.Unordered(schemas, order), k);
    EarlyFails(early, schemas, k, x);
    EarlyFails(early, kept, k, x);
  }

  /** With nothing to pluck and nothing to delete, the two orders agree
      wherever gen3.py's succeeds, given late passes that agree. */
  lemma PipelinesAgree(early: seq<Fields -> Result<Fields>>, lateG: seq<Fields -> Result<Fields>>, lateP: seq<Fields -> Result<Fields>>,
                       order: seq<string>, fixtures: Fields, schemas: Fields)
    requires |lateP| == |lateG| && forall j :: 0 <= j < |lateP| ==> Agrees(lateP[j], lateG[j])
    requires UniqueKeys(schemas) && forall k :: Has(schemas, k) ==> k in order
    requires Gen3Pipeline(early, lateG, order, fixtures, schemas).Ok?
    ensures PfbPipeline(early, lateP, [], order, fixtures, schemas) == Gen3Pipeline(early, lateG, order, fixtures, schemas)
  {
    NothingUnordered(schemas, order);
    var s1 := Run(early, schemas).value;
    SameKeysUnique(schemas, s1);
    SchemaPluck.NothingConfigured(s1, 0);
    RunAgrees(lateP, lateG, s1);
    var s2 := Run(lateG, s1).value;
    NothingUnordered(s2, order);
  }

  /** A dictionary whose keys are all ordered loses nothing. */
  lemma NothingUnordered(schemas: Fields, order: seq<string>)
    requires forall k :: Has(schemas, k) ==> k in order
    ensures SchemaPasses.Without(schemas, SchemaOutput.Unordered(schemas, order)) == schemas
  {
    WithoutSame(schemas, SchemaOutput.Unordered(schemas, order), []);
    SchemaPasses.WithoutNothing(schemas);
  }

  // ---- the passes of the repository

  /** A schema without `properties`: `_remove_required_flag` skips it and
      `_ensure_description` raises `KeyError` on it. */
  lemma PreparedWithoutProperties(c: Config, x: Fields)
    requires !Has(x, "properties")
    ensures |Prepared(c)| >= 2 && Prepared(c)[0](x) == Ok(x)
    ensures Prepared(c)[1](x) == Err(KeyError("properties"))
  {
  }

  /** The late passes of the two files agree pass by pass: only the
      identifier pass differs, and it agrees where gen3.py's succeeds. */
  lemma FinishedAgree(c: Config)
    ensures |Finished(c, true)| == |Finished(c, false)|
    ensures forall j :: 0 <= j < |Finished(c, true)| ==> Agrees(Finished(c, true)[j], Finished(c, false)[j])
  {
    var t := Finished(c, true);
    var f := Finished(c, false);
    forall j | 0 <= j < |t| ensures Agrees(t[j], f[j]) {
      if j == 4 {
        forall x | f[j](x).Ok? ensures t[j](x) == f[j](x) {
          SchemaRewrites.GuardAgrees(x);
        }
      }
    }
  }

  /** With nothing configured to pluck and every vertex in the dependency
      order, simplified.py's `_simplify_schemas` gives what gen3.py's does,
      wherever gen3.py's succeeds. */
  lemma OrdersAgree(c: Config, fixtures: Fields, schemas: Fields)
    requires c.nestedObjects == [] && UniqueKeys(schemas) && forall k :: Has(schemas, k) ==> k in c.order
    requires SimplifyForGen3(c, fixtures, schemas).Ok?
    ensures SimplifyForPfb(c, fixtures, schemas) == SimplifyForGen3(c, fixtures, schemas)
  {
    FinishedAgree(c);
    PipelinesAgree(Prepared(c), Finished(c, false), Finished(c, true), c.order, fixtures, schemas);
  }

  /** A vertex without `properties` outside the dependency order: deleted
      unseen by gen3.py, fatal to simplified.py. */
  lemma UnorderedWithoutProperties(c: Config, fixtures: Fields, schemas: Fields, k: string, x: Fields)
    requires k !in c.order && UniqueKeys(schemas) && !Has(x, "properties")
    ensures SimplifyForPfb(c, fixtures, Put(schemas, k, Obj(x))).Err?
    ensures SimplifyForGen3(c, fixtures, Put(schemas, k, Obj(x))) == SimplifyForGen3(c, fixtures, schemas)
  {
    PreparedWithoutProperties(c, x);
    UnorderedFailure(Prepared(c), Finished(c, true), c.nestedObjects, c.order, fixtures, schemas, k, x);
    Gen3IgnoresUnordered(Prepared(c), Finished(c, false), c.order, fixtures, schemas, k, Obj(x));
  }

  /** The same vertex in the dependency order fails both. */
  lemma OrderedWithoutProperties(c: Config, fixtures: Fields, schemas: Fields, k: string, x: Fields)
    requires k in c.order && Get(schemas, k) == Some(Obj(x)) && !Has(x, "properties")
    ensures SimplifyForPfb(c, fixtures, schemas).Err?
    ensures SimplifyForGen3(c, fixtures, schemas).Err?
  {
    PreparedWithoutProperties(c, x);
    OrderedFailure(Prepared(c), Finished(c, true), c.nestedObjects, c.order, fixtures, schemas, k, x);
    OrderedFailure(Prepared(c), Finished(c, false), c.nestedObjects, c.order, fixtures, schemas, k, x);
  }

  /** gen3.py names its output after the ordered vertices and the static
      dependencies, and leaves the dependency order at the head of the
      completed one. */
  lemma Gen3OutputNames(c: Config, fixtures: Fields, schemas: Fields, n: string)
    requires SimplifyForGen3(c, fixtures, schemas).Ok?
    ensures var r := SimplifyForGen3(c, fixtures, schemas).value;
            |r.1| >= |c.order| && r.1[..|c.order|] == c.order &&
            (Has(r.0, n) <==> exists k :: Kept(schemas, c.order, k) && SchemaOutput.OutputName(k) == n)
  {
    Gen3Names(Prepared(c), Finished(c, false), c.order, fixtures, schemas, n);
  }

  /** So does simplified.py, although it deletes later. */
  lemma PfbOutputNames(c: Config, fixtures: Fields, schemas: Fields, n: string)
    requires SimplifyForPfb(c, fixtures, schemas).Ok?
    ensures var r := SimplifyForPfb(c, fixtures, schemas).value;
            |r.1| >= |c.order| && r.1[..|c.order|] == c.order &&
            (Has(r.0, n) <==> exists k :: Kept(schemas, c.order, k) && SchemaOutput.OutputName(k) == n)
  {
    PfbNames(Prepared(c), Finished(c, true), c.nestedObjects, c.order, fixtures, schemas, n);
  }
}
