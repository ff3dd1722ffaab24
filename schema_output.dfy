// The last steps of `_simplify_schemas` in simplified.py, after every
// pass has run: the vertices outside the dependency order are deleted, the
// order is completed with the remaining keys, and the schemas are re-keyed
// under their underscored names in that order.  Also the statistics line
// logged at the end (`_summarize_stats`).
module SchemaOutput {
  import opened Text
  import opened Json
  import Inflection
  import SchemaPasses

  /** `set(schemas.keys()) - set(dependency_order)`, each vertex once. */
  function Unordered(schemas: Fields, order: seq<string>): (r: seq<string>)
    ensures forall k :: k in r <==> Has(schemas, k) && k !in order
    ensures SchemaPasses.Distinct(r)
  {
    if schemas == [] then []
    else
      var rest := Unordered(schemas[1..], order);
      assert Keys(schemas) == [schemas[0].0] + Keys(schemas[1..]);
      var k := schemas[0].0;
      if k in order || k in rest then rest
      else
        var r := [k] + rest;
        assert forall j :: 0 < j < |r| ==> r[j] == rest[j - 1];
        r
  }

  /** `for k in vertices_to_delete: del schemas[k]` */
  method DropVertices(schemas: Fields, order: seq<string>) returns (r: Fields)
    ensures r == SchemaPasses.Without(schemas, Unordered(schemas, order))
  {
    r := SchemaPasses.DeleteNames(schemas, Unordered(schemas, order));
  }

  /** What survives the deletion: exactly the vertices the order names. */
  lemma Dropped(schemas: Fields, order: seq<string>, k: string)
    ensures Has(SchemaPasses.Without(schemas, Unordered(schemas, order)), k) <==> Has(schemas, k) && k in order
  {
  }

  /** `dependency_order.extend(k for k in ks if k not in dependency_order)`:
      the list grows while the generator runs, so each key is tested
      against the keys already appended too. */
  function ExtendWith(order: seq<string>, ks: seq<string>): (r: seq<string>)
    ensures forall k :: k in r <==> k in order || k in ks
    ensures |r| >= |order| && r[..|order|] == order
    decreases |ks|
  {
    if ks == [] then order
    else ExtendWith(if ks[0] in order then order else order + [ks[0]], ks[1..])
  }

  /** Keys all in the order already leave it as it is. */
  lemma {:induction false} ExtendWithKnown(order: seq<string>, ks: seq<string>)
    requires forall k :: k in ks ==> k in order
    ensures ExtendWith(order, ks) == order
    decreases |ks|
  {
    if ks != [] {
      assert ks[0] in ks;
      forall k | k in ks[1..] ensures k in order {
        assert k in ks;
      }
      ExtendWithKnown(order, ks[1..]);
    }
  }

  /** The loop `dependency_order.extend(...)` runs. */
  method Extend(order: seq<string>, ks: seq<string>) returns (r: seq<string>)
    ensures r == ExtendWith(order, ks)
  {
    r := order;
    var i := 0;
    while i < |ks|
      invariant 0 <= i <= |ks|
      invariant ExtendWith(r, ks[i..]) == ExtendWith(order, ks)
    {
      assert ks[i..][1..] == ks[i + 1..];
      if ks[i] !in r {
        r := r + [ks[i]];
      }
      i := i + 1;
    }
  }

  /** The output name of a schema key: `underscore(k).replace('.yaml', '')`. */
  function OutputName(k: string): string
  {
    Replace(Inflection.Underscore(k), ".yaml", "")
  }

  /** `{name(k): schemas[k] for k in ks if k in schemas}`: a later key with
      the same name replaces the value and keeps the position. */
  function OutputOf(schemas: Fields, ks: seq<string>): (r: Fields)
    decreases |ks|
  {
    if ks == [] then []
    else
      var acc := OutputOf(schemas, ks[..|ks| - 1]);
      var k := ks[|ks| - 1];
      if Has(schemas, k) then Put(acc, OutputName(k), At(schemas, k)) else acc
  }

  /** An output name is present exactly when some listed key present in
      `schemas` has it. */
  lemma {:induction false} OutputHas(schemas: Fields, ks: seq<string>, n: string)
    ensures Has(OutputOf(schemas, ks), n) <==> exists k :: k in ks && Has(schemas, k) && OutputName(k) == n
    decreases |ks|
  {
    if ks != [] {
      var init := ks[..|ks| - 1];
      assert ks == init + [ks[|ks| - 1]];
      OutputHas(schemas, init, n);
    }
  }

  /** The value stored under a name is that of the last listed key with
      that name. */
  lemma {:induction false} OutputGet(schemas: Fields, ks: seq<string>, i: nat)
    requires i < |ks| && Has(schemas, ks[i])
    requires forall j :: i < j < |ks| && Has(schemas, ks[j]) ==> OutputName(ks[j]) != OutputName(ks[i])
    ensures Get(OutputOf(schemas, ks), OutputName(ks[i])) == Get(schemas, ks[i])
    decreases |ks|
  {
    var init := ks[..|ks| - 1];
    if i < |ks| - 1 {
      assert init[i] == ks[i];
      forall j | i < j < |init| && Has(schemas, init[j]) ensures OutputName(init[j]) != OutputName(init[i]) {
        assert init[j] == ks[j];
      }
      OutputGet(schemas, init, i);
    }
  }

  /** The present keys of `ks` in order, and their output names. */
  function Present(schemas: Fields, ks: seq<string>): (r: seq<string>)
    ensures forall k :: k in r <==> k in ks && Has(schemas, k)
    decreases |ks|
  {
    if ks == [] then []
    else
      var init := Present(schemas, ks[..|ks| - 1]);
      var k := ks[|ks| - 1];
      assert ks == ks[..|ks| - 1] + [k];
      if Has(schemas, k) then init + [k] else init
  }

  function Names(ks: seq<string>): (r: seq<string>)
    ensures |r| == |ks|
    ensures forall i :: 0 <= i < |ks| ==> r[i] == OutputName(ks[i])
  {
    seq(|ks|, i requires 0 <= i < |ks| => OutputName(ks[i]))
  }

  /** With no two present keys sharing a name, the output keys are the
      names of the present keys, in the order's order. */
  lemma {:induction false} OutputKeys(schemas: Fields, ks: seq<string>)
    requires SchemaPasses.Distinct(Names(Present(schemas, ks)))
    ensures Keys(OutputOf(schemas, ks)) == Names(Present(schemas, ks))
    decreases |ks|
  {
    if ks != [] {
      var init := ks[..|ks| - 1];
      var k := ks[|ks| - 1];
      var pi := Present(schemas, init);
      assert Names(pi) == Names(Present(schemas, ks))[..|pi|];
      OutputKeys(schemas, init);
      if Has(schemas, k) {
        var pk := Present(schemas, ks);
        assert ks == init + [k];
        assert pk == pi + [k];
        FreshName(schemas, init, k);
        assert Names(pk) == Names(pi) + [OutputName(k)];
      }
    }
  }

  /** A present key whose name no earlier present key has adds a new
      output key. */
  lemma {:induction false} FreshName(schemas: Fields, init: seq<string>, k: string)
    requires Has(schemas, k)
    requires Present(schemas, init + [k]) == Present(schemas, init) + [k]
    requires SchemaPasses.Distinct(Names(Present(schemas, init) + [k]))
    ensures !Has(OutputOf(schemas, init), OutputName(k))
  {
    var pi := Present(schemas, init);
    var pk := pi + [k];
    OutputHas(schemas, init, OutputName(k));
    forall k' | k' in init && Has(schemas, k') ensures OutputName(k') != OutputName(k) {
      var m :| 0 <= m < |pi| && pi[m] == k';
      assert Names(pk)[m] != Names(pk)[|pi|];
    }
  }

  /** The comprehension as a loop over the completed order. */
  method Output(schemas: Fields, ks: seq<string>) returns (r: Fields)
    ensures r == OutputOf(schemas, ks)
  {
    r := [];
    var i := 0;
    while i < |ks|
      invariant 0 <= i <= |ks|
      invariant r == OutputOf(schemas, ks[..i])
    {
      assert ks[..i + 1][..i] == ks[..i];
      if Has(schemas, ks[i]) {
        r := Put(r, OutputName(ks[i]), At(schemas, ks[i]));
      }
      i := i + 1;
    }
    TakeAll(ks);
  }

  /** The last two steps of `_simplify_schemas`: the order completed with
      the keys it does not name, and the schemas re-keyed in that order. */
  function Ordered(schemas: Fields, order: seq<string>): (Fields, seq<string>)
  {
    var full := ExtendWith(order, Keys(schemas));
    (OutputOf(schemas, full), full)
  }

  /** The completed order starts with the dependency order, and an output
      name is present exactly when some schema key has it. */
  lemma OrderedNames(schemas: Fields, order: seq<string>, n: string)
    ensures |Ordered(schemas, order).1| >= |order| && Ordered(schemas, order).1[..|order|] == order
    ensures Has(Ordered(schemas, order).0, n) <==> exists k :: Has(schemas, k) && OutputName(k) == n
  {
    var full := ExtendWith(order, Keys(schemas));
    OutputHas(schemas, full, n);
  }

  /** The output of the finishing steps in simplified.py, from the schemas
      left by the passes (the Gen3 static dependencies come in between; see
      SchemaSimplify), and the completed dependency order it leaves in the
      configuration. */
  function Simplified(schemas: Fields, order: seq<string>): (Fields, seq<string>)
  {
    Ordered(SchemaPasses.Without(schemas, Unordered(schemas, order)), order)
  }

  method FinishSchemas(schemas: Fields, order: seq<string>) returns (gen3: Fields, full: seq<string>)
    ensures (gen3, full) == Simplified(schemas, order)
  {
    var kept := DropVertices(schemas, order);
    full := Extend(order, Keys(kept));
    gen3 := Output(kept, full);
  }

  /** After the deletion the order needs no completion, and the output
      names are exactly those of the ordered vertices that exist. */
  lemma OrderedOutput(schemas: Fields, order: seq<string>, n: string)
    ensures Simplified(schemas, order).1 == order
    ensures Has(Simplified(schemas, order).0, n) <==>
              exists k :: k in order && Has(schemas, k) && OutputName(k) == n
  {
    var kept := SchemaPasses.Without(schemas, Unordered(schemas, order));
    forall k | k in Keys(kept) ensures k in order {
      Dropped(schemas, order, k);
    }
    ExtendWithKnown(order, Keys(kept));
    OutputHas(kept, order, n);
    forall k | k in order ensures Has(kept, k) <==> Has(schemas, k) {
      Dropped(schemas, order, k);
    }
  }

  // ---- `_summarize_stats`

  /** The summary dict, keyed by title values: a title seen again keeps its
      position and takes the later count. */
  type Summary = seq<(Json, nat)>

  function SummaryPut(s: Summary, t: Json, n: nat): (r: Summary)
    ensures (t, n) in r
    ensures forall e :: e in r && e.0 != t ==> e in s
    ensures forall e :: e in s && e.0 != t ==> e in r
    ensures |r| <= |s| + 1
  {
    if s == [] then [(t, n)]
    else if s[0].0 == t then [(t, n)] + s[1..]
    else [s[0]] + SummaryPut(s[1..], t, n)
  }

  /** One schema of the loop of `_summarize_stats`: one lacking a title or
      properties is skipped; indexing a non-dict, a properties value
      without a length or an unhashable title is a TypeError. */
  function SummaryStep(acc: Summary, schema: Json): (r: Result<Summary>)
  {
    var hasTitle :- InJ("title", schema);
    if !hasTitle then Ok(acc)
    else
      var hasProps := InJ("properties", schema).value;
      if !hasProps then Ok(acc)
      else
        var t :- Subscript(schema, Str("title"));
        var props :- Subscript(schema, Str("properties"));
        var n :- Len(props);
        if !Hashable(t) then Err(TypeError("unhashable type")) else Ok(SummaryPut(acc, t, n))
  }

  /** The loop over a prefix of the schemas. */
  function SummaryOf(schemas: Fields): (r: Result<Summary>)
    decreases |schemas|
  {
    if schemas == [] then Ok([])
    else
      var acc :- SummaryOf(schemas[..|schemas| - 1]);
      SummaryStep(acc, schemas[|schemas| - 1].1)
  }

  /** A failure part way through is the loop's failure. */
  lemma {:induction false} SummaryFails(schemas: Fields, i: nat)
    requires i <= |schemas| && SummaryOf(schemas[..i]).Err?
    ensures SummaryOf(schemas) == SummaryOf(schemas[..i])
    decreases |schemas| - i
  {
    if i < |schemas| {
      assert schemas[..i + 1][..i] == schemas[..i];
      SummaryFails(schemas, i + 1);
    } else {
      TakeAll(schemas);
    }
  }

  /** A schema with title `t` and a dict of properties is counted under `t`
      unless a later schema has the same title. */
  lemma {:induction false} SummaryCounts(schemas: Fields, i: nat, t: string)
    requires SummaryOf(schemas).Ok?
    requires i < |schemas| && schemas[i].1.Obj?
    requires Get(schemas[i].1.fields, "title") == Some(Str(t))
    requires Get(schemas[i].1.fields, "properties").Some? && Get(schemas[i].1.fields, "properties").value.Obj?
    requires forall j :: i < j < |schemas| && schemas[j].1.Obj? ==> Get(schemas[j].1.fields, "title") != Some(Str(t))
    ensures (Str(t), |Get(schemas[i].1.fields, "properties").value.fields|) in SummaryOf(schemas).value
    decreases |schemas|
  {
    var init := schemas[..|schemas| - 1];
    var last := schemas[|schemas| - 1].1;
    var acc := SummaryOf(init).value;
    if i < |schemas| - 1 {
      assert init[i] == schemas[i];
      forall j | i < j < |init| && init[j].1.Obj? ensures Get(init[j].1.fields, "title") != Some(Str(t)) {
        assert init[j] == schemas[j];
      }
      SummaryCounts(init, i, t);
      StepKeeps(acc, last, (Str(t), |Get(schemas[i].1.fields, "properties").value.fields|));
    } else {
      StepCounts(acc, last, t);
    }
  }

  lemma {:induction false} StepCounts(acc: Summary, schema: Json, t: string)
    requires schema.Obj? && Get(schema.fields, "title") == Some(Str(t))
    requires Get(schema.fields, "properties").Some? && Get(schema.fields, "properties").value.Obj?
    ensures SummaryStep(acc, schema) == Ok(SummaryPut(acc, Str(t), |Get(schema.fields, "properties").value.fields|))
  {
    assert Subscript(schema, Str("title")) == Ok(Str(t));
    assert Len(At(schema.fields, "properties")) == Ok(|Get(schema.fields, "properties").value.fields|);
  }

  /** A counted title other than the schema's stays counted. */
  lemma {:induction false} StepKeeps(acc: Summary, schema: Json, e: (Json, nat))
    requires e in acc && SummaryStep(acc, schema).Ok?
    requires schema.Obj? ==> Get(schema.fields, "title") != Some(e.0)
    ensures e in SummaryStep(acc, schema).value
  {
    if schema.Obj? && Has(schema.fields, "title") && Has(schema.fields, "properties") {
      assert Subscript(schema, Str("title")) == Ok(At(schema.fields, "title"));
    }
  }

  /** `f'{k}: {v}'` with `v` the dict `{'total_property_counts': n}`. */
  function StatLine(t: Json, n: nat): string
  {
    Format(t) + ": {'total_property_counts': " + NatToString(n) + "}"
  }

  function StatLines(s: Summary): (r: seq<string>)
    ensures |r| == |s|
    ensures forall i :: 0 <= i < |s| ==> r[i] == StatLine(s[i].0, s[i].1)
  {
    seq(|s|, i requires 0 <= i < |s| => StatLine(s[i].0, s[i].1))
  }

  /** The text `_summarize_stats` returns. */
  function StatsText(schemas: Fields): (r: Result<string>)
  {
    var s :- SummaryOf(schemas);
    Ok("  " + Join(SortStrs(StatLines(s)), "\n  "))
  }

  /** The lines of the summary appear in sorted order, each once per title. */
  lemma StatsSorted(s: Summary)
    ensures SortedStrs(SortStrs(StatLines(s)))
    ensures multiset(SortStrs(StatLines(s))) == multiset(StatLines(s))
  {
    SortStrsCorrect(StatLines(s));
  }

  method SummarizeStats(schemas: Fields) returns (r: Result<string>)
    ensures r == StatsText(schemas)
  {
    var acc: Summary := [];
    var i := 0;
    while i < |schemas|
      invariant 0 <= i <= |schemas|
      invariant SummaryOf(schemas[..i]) == Ok(acc)
    {
      assert schemas[..i + 1][..i] == schemas[..i];
      var next := SummaryStep(acc, schemas[i].1);
      if next.Err? {
        SummaryFails(schemas, i + 1);
        return Err(next.error);
      }
      acc := next.value;
      i := i + 1;
    }
    TakeAll(schemas);
    r := Ok("  " + Join(SortStrs(StatLines(acc)), "\n  "));
  }
}
