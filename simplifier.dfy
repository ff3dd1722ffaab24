// The simplifier's entry points and the state they share: the references
// collected while a resource is rendered, and the messages already logged
// once.

module Simplifier {

  import opened Text
  import opened Json
  import opened SimplifierRender
  import opened SimplifierDialect

  /** The messages logged, in order, after logging each of `msgs` once. */
  function Logged(logged: seq<Json>, msgs: seq<Json>): seq<Json>
    decreases |msgs|
  {
    if msgs == [] then logged
    else Logged(if msgs[0] in logged then logged else logged + [msgs[0]], msgs[1..])
  }

  predicate NoDuplicates(s: seq<Json>)
  {
    forall i, j :: 0 <= i < j < |s| ==> s[i] != s[j]
  }

  /** Logging once keeps the log free of duplicates, keeps what was logged
      before, and logs exactly the messages seen. */
  lemma {:induction false} LoggedOnce(logged: seq<Json>, msgs: seq<Json>)
    requires NoDuplicates(logged)
    ensures NoDuplicates(Logged(logged, msgs))
    ensures |logged| <= |Logged(logged, msgs)| && Logged(logged, msgs)[..|logged|] == logged
    ensures forall m :: m in Logged(logged, msgs) <==> m in logged || m in msgs
    decreases |msgs|
  {
    if msgs != [] {
      var next := if msgs[0] in logged then logged else logged + [msgs[0]];
      assert NoDuplicates(next) by {
        if msgs[0] !in logged {
          forall i, j | 0 <= i < j < |next| ensures next[i] != next[j] {
            if j == |logged| { assert next[i] == logged[i]; }
          }
        }
      }
      LoggedOnce(next, msgs[1..]);
      var r := Logged(logged, msgs);
      assert r == Logged(next, msgs[1..]);
      assert r[..|logged|] == next[..|next|][..|logged|];
      forall m ensures m in r <==> m in logged || m in msgs {
        assert m in msgs <==> m == msgs[0] || m in msgs[1..];
      }
    }
  }

  /** Logging messages already logged changes nothing. */
  lemma {:induction false} LoggedAgain(logged: seq<Json>, msgs: seq<Json>)
    requires forall m :: m in msgs ==> m in logged
    ensures Logged(logged, msgs) == logged
    decreases |msgs|
  {
    if msgs != [] {
      LoggedAgain(logged, msgs[1..]);
    }
  }

  /** `str(e)` of a caught exception, as the value it prints: the message
      text, or the tuple an assertion was raised with. */
  function Message(e: PyError): (m: Json)
    ensures e.AssertionTuple? ==> m.Arr? && |m.items| == 3
    ensures !e.AssertionTuple? ==> m.Str?
  {
    match e
    case AssertionTuple(tag, subject, items) => Arr([Str(tag), Str(subject), Strings(items)])
    case KeyError(k) => Str(k)
    case TypeError(w) => Str(w)
    case ValueError(w) => Str(w)
    case IndexError(w) => Str(w)
    case AttributeError(w) => Str(w)
    case AssertionError(w) => Str(w)
    case UnboundLocalError(w) => Str(w)
    case JsonPointerException(w) => Str(w)
    case FileNotFoundError(w) => Str(w)
  }

  /** A list of strings. */
  function Strings(items: seq<string>): (r: Json)
    ensures r.Arr? && |r.items| == |items|
    ensures forall i :: 0 <= i < |items| ==> r.items[i] == Str(items[i])
  {
    Arr(seq(|items|, i requires 0 <= i < |items| => Str(items[i])))
  }

  /** Two failed schema checks print the same message exactly when they
      name the same type and the same extra fields, so `_debug_once` logs
      each distinct failure once. */
  lemma TupleMessages(e1: PyError, e2: PyError)
    requires e1.AssertionTuple? && e2.AssertionTuple?
    ensures Message(e1) == Message(e2) <==> e1 == e2
  {
    if Message(e1) == Message(e2) {
      var a, b := Message(e1).items, Message(e2).items;
      assert a[2] == b[2];
      var s1, s2 := e1.items, e2.items;
      assert |s1| == |s2|;
      forall i | 0 <= i < |s1|
        ensures s1[i] == s2[i]
      {
        assert Strings(s1).items[i] == Strings(s2).items[i];
      }
      assert s1 == s2;
    }
  }

  /** Each value of a record passes `validate_simplified_value`. */
  predicate AllValid(f: Fields)
  {
    forall i :: 0 <= i < |f| ==> ValidSimplifiedValue(Prim(f[i].1))
  }

  /** The references of the last rendered resource (`THREAD_LOCAL.references`)
      and the messages logged so far (`LOGGED_ALREADY`). */
  class SimplifierState {
    var references: seq<Option<string>>
    var logged: seq<Json>

    constructor ()
      ensures references == [] && logged == []
    {
      references := [];
      logged := [];
    }

    /** `_debug_once`: a message is logged the first time it is seen. */
    method DebugOnce(msg: Json)
      modifies this
      ensures logged == if msg in old(logged) then old(logged) else old(logged) + [msg]
      ensures references == old(references)
    {
      if msg !in logged {
        logged := logged + [msg];
      }
    }

    /** The messages a rendering produced, each passed to `_debug_once` in
        order. */
    method DebugAll(msgs: seq<Json>)
      modifies this
      ensures logged == Logged(old(logged), msgs)
      ensures references == old(references)
    {
      var i := 0;
      while i < |msgs|
        invariant 0 <= i <= |msgs|
        invariant Logged(old(logged), msgs) == Logged(logged, msgs[i..])
        invariant references == old(references)
      {
        assert msgs[i..][0] == msgs[i] && msgs[i..][1..] == msgs[i + 1..];
        DebugOnce(msgs[i]);
        i := i + 1;
      }
    }

    /** `_render_references` run in place: each Reference element's value
        under its name, its reference recorded as it is met. */
    method RenderReferencesInPlace(x: Fhir) returns (f: Fields)
      requires x.Model?
      modifies this
      ensures f == RenderReferences(x).0
      ensures references == old(references) + RenderReferences(x).1.refs
      ensures logged == old(logged)
    {
      f := [];
      var added: seq<Option<string>> := [];
      var i := 0;
      while i < |x.fields|
        invariant 0 <= i <= |x.fields|
        invariant ReferencesFrom(x.fields, [], []) == ReferencesFrom(x.fields[i..], f, added)
        invariant references == old(references) + added
        invariant logged == old(logged)
      {
        ReferencesStep(x.fields, i, f, added);
        var e := x.fields[i];
        if IsReference(e.val) {
          var ref := StrField(e.val, "reference");
          f := Put(f, e.name, OptJson(ref));
          added := added + [ref];
          references := references + [ref];
        }
        i := i + 1;
      }
      assert x.fields[i..] == [];
    }

    /** `simplify`: the resource rendered by the installed `dict()`
        replacements, with the references it met and the messages it logged,
        then the dialect's scaffolding. */
    method Simplify(x: Fhir, dialect: string, oid: Oid) returns (r: Result<Json>, refs: seq<Option<string>>)
      modifies this
      ensures Dict(x, oid).Err? ==> r == Err(Dict(x, oid).error)
      ensures Dict(x, oid).Ok? ==> refs == references == Dict(x, oid).value.trace.refs
      ensures Dict(x, oid).Ok? ==> logged == Logged(old(logged), Dict(x, oid).value.trace.debug)
      ensures Dict(x, oid).Ok? && dialect != "GEN3" ==> r == Ok(Dict(x, oid).value.value)
      ensures Dict(x, oid).Ok? && dialect == "GEN3" && !Dict(x, oid).value.value.Obj? ==> r.Err? && r.error.TypeError?
      ensures Dict(x, oid).Ok? && dialect == "GEN3" && Dict(x, oid).value.value.Obj?
              && Has(Dict(x, oid).value.value.fields, "resourceType") && !IsDocumentReference(Dict(x, oid).value.value.fields)
              ==> r == Ok(Dict(x, oid).value.value)
      ensures Dict(x, oid).Ok? && dialect == "GEN3" && Dict(x, oid).value.value.Obj?
              && IsDocumentReference(Dict(x, oid).value.value.fields) && r.Ok?
              ==> r.value.Obj? && Scaffolded(Dict(x, oid).value.value.fields, r.value.fields)
    {
      references := [];
      refs := [];
      var d := Dict(x, oid);
      if d.Err? {
        return Err(d.error), refs;
      }
      references := d.value.trace.refs;
      DebugAll(d.value.trace.debug);
      refs := references;
      r := EnsureDialect(d.value.value, dialect);
    }

    /** One resource of `simplify_directory`: simplified, checked against its
        schema (a failed check is logged once and does not stop it), checked
        to be flat, and rendered in the dialect. */
    method SimplifyResource(x: Fhir, dialect: string, schemas: Json, oid: Oid) returns (r: Result<Json>)
      modifies this
      ensures r.Ok? ==> Dict(x, oid).Ok?
      ensures r.Ok? && dialect != "GEN3" ==> Dict(x, oid).value.value.Obj? && r.value == Dict(x, oid).value.value
      ensures r.Ok? && dialect != "GEN3" ==> AllValid(r.value.fields) && r.value.fields != []
      ensures r.Ok? && dialect == "GEN3" ==> r.value.Obj? && Keys(r.value.fields) == ["id", "name", "relations", "object"]
      ensures r.Ok? && dialect == "GEN3" ==>
                Get(r.value.fields, "object").Some? && Get(r.value.fields, "object").value.Obj?
                && AllValid(Get(r.value.fields, "object").value.fields)
    {
      var simplified, refs := Simplify(x, dialect, oid);
      var s :- simplified;
      if !s.Obj? {
        return Err(AttributeError("values"));
      }
      var check := CheckSimplifiedSchemas(s.fields, schemas);
      if check.Err? {
        if check.error.TypeError? || IsAssertion(check.error) {
          DebugOnce(Message(check.error));
        } else {
          return Err(check.error);
        }
      }
      if s.fields == [] {
        return Err(AssertionError("Should have simplified"));
      }
      var allOk := AllValidOf(s.fields);
      if !allOk {
        return Err(AssertionError("all_ok"));
      }
      r := RenderDialect(s.fields, refs, dialect, schemas);
      if r.Ok? && dialect == "GEN3" {
        Gen3RecordShape(s.fields, refs, schemas);
      }
    }
  }

  lemma ReferencesStep(fs: seq<Elem>, i: nat, acc: Fields, refs: seq<Option<string>>)
    requires i < |fs|
    ensures ReferencesFrom(fs[i..], acc, refs)
            == if IsReference(fs[i].val)
               then ReferencesFrom(fs[i + 1..], Put(acc, fs[i].name, OptJson(StrField(fs[i].val, "reference"))),
                                   refs + [StrField(fs[i].val, "reference")])
               else ReferencesFrom(fs[i + 1..], acc, refs)
  {
    assert fs[i..][0] == fs[i] && fs[i..][1..] == fs[i + 1..];
  }

  lemma PrimitivesStep(fs: seq<Elem>, i: nat, acc: Fields)
    requires i < |fs|
    ensures PrimitivesFrom(fs[i..], acc)
            == if IsPrimitive(fs[i].val) then PrimitivesFrom(fs[i + 1..], Put(acc, fs[i].name, fs[i].val.value))
               else PrimitivesFrom(fs[i + 1..], acc)
  {
    assert fs[i..][0] == fs[i] && fs[i..][1..] == fs[i + 1..];
  }

  /** `_render_primitives`: the loop over the elements, then the resource
      type. */
  method RenderPrimitivesLoop(x: Fhir) returns (f: Fields)
    requires x.Model?
    ensures f == RenderPrimitives(x)
  {
    f := [];
    var i := 0;
    while i < |x.fields|
      invariant 0 <= i <= |x.fields|
      invariant PrimitivesFrom(x.fields, []) == PrimitivesFrom(x.fields[i..], f)
    {
      PrimitivesStep(x.fields, i, f);
      var e := x.fields[i];
      if IsPrimitive(e.val) {
        f := Put(f, e.name, e.val.value);
      }
      i := i + 1;
    }
    assert x.fields[i..] == [];
    if !Has(f, "resourceType") {
      f := Put(f, "resourceType", Str(x.kind));
    }
  }

  /** `all([validate_simplified_value(_) for _ in simplified.values()])` */
  method AllValidOf(f: Fields) returns (ok: bool)
    ensures ok <==> AllValid(f)
  {
    ok := true;
    var i := 0;
    while i < |f|
      invariant 0 <= i <= |f|
      invariant ok <==> forall j :: 0 <= j < i ==> ValidSimplifiedValue(Prim(f[j].1))
    {
      ok := ok && ValidSimplifiedValue(Prim(f[i].1));
      i := i + 1;
    }
  }
}
