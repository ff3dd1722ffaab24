// The GEN3 dialect of the simplifier: which simplified values are flat
// enough, the DocumentReference scaffolding, the graph-loader record with
// its links, and the check of a simplified record against its schema.

module SimplifierDialect {

  import opened Text
  import opened Json
  import opened Inflection
  import opened SimplifierRender

  // ---------------------------------------------------------------------
  // validate_simplified_value

  /** A dict or a FHIR object, which a flat record must not hold. */
  predicate Nested(v: Fhir)
  {
    v.Model? || (v.Prim? && v.value.Obj?)
  }

  predicate IsList(v: Fhir)
  {
    v.Many? || (v.Prim? && v.value.Arr?)
  }

  /** The first element of a non-empty list value. */
  function ListHead(v: Fhir): Option<Fhir>
  {
    match v
    case Many(xs) => if xs == [] then None else Some(xs[0])
    case Prim(Arr(xs)) => if xs == [] then None else Some(Prim(xs[0]))
    case _ => None
  }

  /** `validate_simplified_value`: false exactly for a nested value and for
      a non-empty list whose first element is nested. */
  function ValidSimplifiedValue(v: Fhir): (r: bool)
    ensures r <==> !Nested(v) && !(ListHead(v).Some? && Nested(ListHead(v).value))
  {
    if v == Unset then true
    else if IsList(v) && ListHead(v).None? then true
    else if IsList(v) && ListHead(v).value.Model? then false
    else if IsList(v) && ListHead(v).value.Prim? && ListHead(v).value.value.Obj? then false
    else if v.Model? then false
    else if v.Prim? && v.value.Obj? then false
    else true
  }

  /** Only the first element of a list is looked at. */
  lemma OnlyHeadChecked(x: Fhir, ys: seq<Fhir>, zs: seq<Fhir>)
    ensures ValidSimplifiedValue(Many([x] + ys)) == ValidSimplifiedValue(Many([x] + zs))
    ensures ValidSimplifiedValue(Many([x] + ys)) == !Nested(x)
  {
  }

  // ---------------------------------------------------------------------
  // Paths, as `pathlib.PurePosixPath` sees them

  /** The last component of a POSIX path, as `PurePosixPath(p).name`; empty
      components and `.` are not components. */
  function PathName(p: string): (r: string)
    ensures r == "" || r in Split(p, "/")
    ensures r != "."
  {
    LastComponent(Split(p, "/"))
  }

  function LastComponent(parts: seq<string>): (r: string)
    ensures r == "" || r in parts
    ensures r != "."
    decreases |parts|
  {
    if parts == [] then ""
    else
      var last := parts[|parts| - 1];
      if last == "" || last == "." then LastComponent(parts[..|parts| - 1]) else last
  }

  /** The index of the last `c` in `s`, as `s.rfind(c)`. */
  function LastIndex(s: string, c: char): (r: Option<nat>)
    ensures r.Some? ==> r.value < |s| && s[r.value] == c && forall j :: r.value < j < |s| ==> s[j] != c
    ensures r.None? ==> c !in s
    decreases |s|
  {
    if s == [] then None
    else if s[|s| - 1] == c then Some(|s| - 1)
    else LastIndex(s[..|s| - 1], c)
  }

  /** `PurePosixPath(p).suffix` of a name: from its last dot, unless that dot
      starts or ends the name. */
  function Suffix(name: string): (r: string)
    ensures r == "" || (|r| >= 2 && r[0] == '.' && '.' !in r[1..] && EndsWith(name, r) && |r| < |name|)
  {
    match LastIndex(name, '.')
    case Some(i) =>
      if 0 < i < |name| - 1 then
        assert forall k :: 0 <= k < |name[i..][1..]| ==> name[i..][1..][k] == name[i + 1 + k];
        name[i..]
      else ""
    case None => ""
  }

  /** A suffix without its dot, as `suffix.replace('.', '')` when the
      suffix is not empty. */
  function DropDots(suffix: string): (r: string)
    ensures '.' !in r
  {
    if suffix != "" then RemoveChar(suffix, '.') else suffix
  }

  /** The data type the scaffolding derives from a url: the suffix of its
      name without the dot. */
  function DataType(url: string): string
  {
    DropDots(Suffix(PathName(url)))
  }

  /** The data format of the known data types. */
  function DataFormat(t: string): Option<string>
  {
    if t == "csv" then Some("variants")
    else if t == "dcm" || t == "tif" then Some("imaging")
    else if t == "txt" then Some("note")
    else if t == "out" || t == "log" then Some("log")
    else if t == "m" then Some("matlab")
    else if t == "sh" then Some("script")
    else None
  }

  /** The name of `dir/stem.ext` is `stem.ext`. */
  lemma NameOf(dir: string, name: string)
    requires '/' !in name && name != "" && name != "."
    ensures PathName(dir + "/" + name) == name
  {
    LastPieceAfter(dir, '/', name);
    assert dir + "/" + name == dir + ['/'] + name;
  }

  /** The suffix of `stem.ext` is `.ext` when the stem is not empty and the
      extension holds no dot. */
  lemma SuffixOf(stem: string, ext: string)
    requires stem != "" && ext != "" && '.' !in ext
    ensures Suffix(stem + "." + ext) == "." + ext
  {
    var name := stem + "." + ext;
    var i := LastIndex(name, '.');
    assert name[|stem|] == '.';
    assert i.Some?;
    assert i.value >= |stem|;
    assert forall j :: |stem| < j < |name| ==> name[j] == ext[j - |stem| - 1];
    assert i.value == |stem|;
    assert name[|stem|..] == "." + ext;
  }

  /** Dropping the dot of `.ext` gives `ext`. */
  lemma DropDotsOf(ext: string)
    requires '.' !in ext
    ensures DropDots("." + ext) == ext
  {
    assert ("." + ext)[1..] == ext;
  }

  /** The data type of `dir/stem.ext` is `ext`. */
  lemma DataTypeOf(dir: string, stem: string, ext: string)
    requires stem != "" && ext != "" && '.' !in ext && '/' !in stem && '/' !in ext
    ensures DataType(dir + "/" + stem + "." + ext) == ext
    ensures PathName(dir + "/" + stem + "." + ext) == stem + "." + ext
  {
    var name := stem + "." + ext;
    assert '/' !in name;
    assert dir + "/" + stem + "." + ext == dir + "/" + name;
    NameOf(dir, name);
    SuffixOf(stem, ext);
    DropDotsOf(ext);
  }

  // ---------------------------------------------------------------------
  // _gen3_scaffolding_document_reference and _ensure_dialect

  /** The keys the scaffolding may set. */
  predicate ScaffoldKey(k: string)
  {
    k == "data_type" || k == "data_format" || k == "file_name" || k == "md5sum" || k == "file_size" || k == "object_id"
  }

  predicate IsDocumentReference(s: Fields)
  {
    Get(s, "resourceType") == Some(Str("DocumentReference"))
  }

  /** A DocumentReference record whose `content_url`, when present, is a
      string. */
  predicate UrlReadable(s: Fields)
  {
    !Has(s, "content_url") || At(s, "content_url").Str?
  }

  /** The data type and file name of a record's url, None without one. */
  function UrlType(s: Fields): Json
  {
    var url := Get(s, "content_url");
    if url.Some? && url.value.Str? then Str(DataType(url.value.s)) else Null
  }

  function UrlName(s: Fields): Json
  {
    var url := Get(s, "content_url");
    if url.Some? && url.value.Str? then Str(PathName(url.value.s)) else Null
  }

  /** The url's part of the scaffolding: `t` is `s` with the data type
      `dt`, the data format of a known type, and the file name `fname`. */
  ghost predicate UrlSet(s: Fields, dt: Json, fname: Json, t: Fields)
  {
    && Get(t, "data_type") == Some(dt)
    && Get(t, "data_format")
       == (if dt.Str? && DataFormat(dt.s).Some? then Some(Str(DataFormat(dt.s).value)) else Get(s, "data_format"))
    && Get(t, "file_name") == Some(fname)
    && forall k :: k != "data_type" && k != "data_format" && k != "file_name" ==> Get(t, k) == Get(s, k)
  }

  /** The copies at the end of the scaffolding: `u` is `t` with checksum and
      size copied from the content, and the id as object id. */
  ghost predicate CopiesSet(t: Fields, u: Fields)
  {
    && Get(u, "md5sum") == (if Get(t, "content_md5").Some? then Get(t, "content_md5") else Get(t, "md5sum"))
    && Get(u, "file_size") == (if Get(t, "content_size").Some? then Get(t, "content_size") else Get(t, "file_size"))
    && Get(u, "object_id") == Get(t, "id")
    && forall k :: k != "md5sum" && k != "file_size" && k != "object_id" ==> Get(u, k) == Get(t, k)
  }

  /** What the scaffolding sets on a DocumentReference record `s`, giving
      `u`: the data type, format and file name of its url (None without
      one), the checksum and size copied from the content, the id as object
      id, and nothing else. */
  ghost predicate Scaffolded(s: Fields, u: Fields)
  {
    ScaffoldedUrl(s, u) && ScaffoldedCopies(s, u) && forall k :: !ScaffoldKey(k) ==> Get(u, k) == Get(s, k)
  }

  ghost predicate ScaffoldedUrl(s: Fields, u: Fields)
  {
    && Get(u, "data_type") == Some(UrlType(s))
    && Get(u, "data_format")
       == (if UrlType(s).Str? && DataFormat(UrlType(s).s).Some? then Some(Str(DataFormat(UrlType(s).s).value))
           else Get(s, "data_format"))
    && Get(u, "file_name") == Some(UrlName(s))
  }

  ghost predicate ScaffoldedCopies(s: Fields, u: Fields)
  {
    && Get(u, "md5sum") == (if Get(s, "content_md5").Some? then Get(s, "content_md5") else Get(s, "md5sum"))
    && Get(u, "file_size") == (if Get(s, "content_size").Some? then Get(s, "content_size") else Get(s, "file_size"))
    && Get(u, "object_id") == Get(s, "id")
  }

  /** The two steps together are the scaffolding. */
  lemma ScaffoldSteps(s: Fields, t: Fields, u: Fields)
    requires UrlSet(s, UrlType(s), UrlName(s), t) && CopiesSet(t, u)
    ensures Scaffolded(s, u)
  {
    ScaffoldStepsUrl(s, t, u);
    ScaffoldStepsCopies(s, UrlType(s), UrlName(s), t, u);
    forall k | !ScaffoldKey(k) ensures Get(u, k) == Get(s, k) {
      assert Get(u, k) == Get(t, k);
    }
  }

  lemma ScaffoldStepsUrl(s: Fields, t: Fields, u: Fields)
    requires UrlSet(s, UrlType(s), UrlName(s), t) && CopiesSet(t, u)
    ensures ScaffoldedUrl(s, u)
  {
    assert Get(u, "data_type") == Get(t, "data_type");
    assert Get(u, "data_format") == Get(t, "data_format");
    assert Get(u, "file_name") == Get(t, "file_name");
  }

  lemma ScaffoldStepsCopies(s: Fields, dt: Json, fname: Json, t: Fields, u: Fields)
    requires UrlSet(s, dt, fname, t) && CopiesSet(t, u)
    ensures ScaffoldedCopies(s, u)
  {
    assert Get(t, "content_md5") == Get(s, "content_md5");
    assert Get(t, "content_size") == Get(s, "content_size");
    assert Get(t, "md5sum") == Get(s, "md5sum");
    assert Get(t, "file_size") == Get(s, "file_size");
    assert Get(t, "id") == Get(s, "id");
  }

  /** The data type, format and file name. */
  method ScaffoldUrl(s: Fields, suffix: Option<string>, fileName: Json) returns (t: Fields)
    ensures UrlSet(s, if suffix.Some? then Str(DropDots(suffix.value)) else Null, fileName, t)
  {
    var sfx := suffix;
    if sfx.Some? && sfx.value != "" {
      sfx := Some(RemoveChar(sfx.value, '.'));
    }
    t := Put(s, "data_type", if sfx.Some? then Str(sfx.value) else Null);
    if sfx.Some? {
      var f := DataFormat(sfx.value);
      if f.Some? {
        t := Put(t, "data_format", Str(f.value));
      }
    }
    t := Put(t, "file_name", fileName);
  }

  /** The checksum, size and object id; a record without an id raises. */
  method ScaffoldCopies(t: Fields) returns (r: Result<Fields>)
    ensures r.Ok? <==> Has(t, "id")
    ensures r.Err? ==> r == Err(KeyError("id"))
    ensures r.Ok? ==> CopiesSet(t, r.value)
  {
    var u := t;
    if Has(u, "content_md5") {
      u := Put(u, "md5sum", At(u, "content_md5"));
    }
    if Has(u, "content_size") {
      u := Put(u, "file_size", At(u, "content_size"));
    }
    if !Has(u, "id") {
      return Err(KeyError("id"));
    }
    u := Put(u, "object_id", At(u, "id"));
    return Ok(u);
  }

  /** `_gen3_scaffolding_document_reference`: a DocumentReference record
      gains the Gen3 file properties; any other record is returned as it is. */
  method Gen3Scaffolding(simplified: Fields) returns (r: Result<Fields>)
    ensures !Has(simplified, "resourceType") ==> r == Err(KeyError("resourceType"))
    ensures Has(simplified, "resourceType") && !IsDocumentReference(simplified) ==> r == Ok(simplified)
    ensures IsDocumentReference(simplified) && !UrlReadable(simplified) ==> r.Err? && r.error.TypeError?
    ensures IsDocumentReference(simplified) && UrlReadable(simplified) ==>
              (r.Ok? <==> Has(simplified, "id")) && (r.Err? ==> r == Err(KeyError("id")))
    ensures IsDocumentReference(simplified) && r.Ok? ==> Scaffolded(simplified, r.value)
  {
    if !Has(simplified, "resourceType") {
      return Err(KeyError("resourceType"));
    }
    if At(simplified, "resourceType") != Str("DocumentReference") {
      return Ok(simplified);
    }
    var suffix: Option<string>;
    var fileName: Json;
    if !Has(simplified, "content_url") {
      // the warning about the missing url reads the record's id
      if !Has(simplified, "id") {
        return Err(KeyError("id"));
      }
      suffix, fileName := None, Null;
    } else {
      var url := At(simplified, "content_url");
      if !url.Str? {
        return Err(TypeError("expected str, bytes or os.PathLike object"));
      }
      suffix, fileName := Some(Suffix(PathName(url.s))), Str(PathName(url.s));
    }
    assert fileName == UrlName(simplified);
    assert (if suffix.Some? then Str(DropDots(suffix.value)) else Null) == UrlType(simplified);
    var t := ScaffoldUrl(simplified, suffix, fileName);
    assert Get(t, "id") == Get(simplified, "id");
    r := ScaffoldCopies(t);
    if r.Ok? {
      ScaffoldSteps(simplified, t, r.value);
    }
  }

  /** `_ensure_dialect`: only the GEN3 dialect changes a record. */
  method EnsureDialect(simplified: Json, dialect: string) returns (r: Result<Json>)
    ensures dialect != "GEN3" ==> r == Ok(simplified)
    ensures dialect == "GEN3" && !simplified.Obj? ==> r.Err? && r.error.TypeError?
    ensures dialect == "GEN3" && simplified.Obj? && Has(simplified.fields, "resourceType") && !IsDocumentReference(simplified.fields)
            ==> r == Ok(simplified)
    ensures dialect == "GEN3" && simplified.Obj? && IsDocumentReference(simplified.fields) && r.Ok?
            ==> r.value.Obj? && Scaffolded(simplified.fields, r.value.fields)
  {
    if dialect != "GEN3" {
      return Ok(simplified);
    }
    if !simplified.Obj? {
      return Err(TypeError("indices must be integers"));
    }
    var s :- Gen3Scaffolding(simplified.fields);
    return Ok(Obj(s));
  }

  // ---------------------------------------------------------------------
  // _render_dialect

  /** `[_['title'] for _ in values if 'title' in _]` */
  function Titles(vs: seq<Json>): (r: Result<seq<Json>>)
    decreases |vs|
  {
    if vs == [] then Ok([])
    else
      var has :- InJ("title", vs[0]);
      var head :- if has then (var t :- Subscript(vs[0], Str("title")); Ok([t])) else Ok([]);
      var rest :- Titles(vs[1..]);
      Ok(head + rest)
  }

  /** The titles of schemas given as dicts: exactly the `title` values
      present. */
  lemma {:induction false} TitlesOfSchemas(vs: seq<Json>)
    requires forall i :: 0 <= i < |vs| ==> vs[i].Obj?
    ensures Titles(vs).Ok?
    ensures forall t :: t in Titles(vs).value <==> exists i :: 0 <= i < |vs| && Get(vs[i].fields, "title") == Some(t)
    decreases |vs|
  {
    if vs != [] {
      assert forall i :: 0 <= i < |vs[1..]| ==> vs[1..][i] == vs[i + 1];
      TitlesOfSchemas(vs[1..]);
      forall t ensures t in Titles(vs).value <==> exists i :: 0 <= i < |vs| && Get(vs[i].fields, "title") == Some(t) {
        if exists i :: 0 <= i < |vs| && Get(vs[i].fields, "title") == Some(t) {
          var i :| 0 <= i < |vs| && Get(vs[i].fields, "title") == Some(t);
          if i > 0 { assert Get(vs[1..][i - 1].fields, "title") == Some(t); }
        }
        if exists i :: 0 <= i < |vs[1..]| && Get(vs[1..][i].fields, "title") == Some(t) {
          var i :| 0 <= i < |vs[1..]| && Get(vs[1..][i].fields, "title") == Some(t);
          assert Get(vs[i + 1].fields, "title") == Some(t);
        }
      }
    }
  }

  /** A graph-loader link to the vertex `id` of the type `typeName`. */
  function Link(typeName: string, id: string): Json
  {
    Obj([("dst_id", Str(id)), ("dst_name", Str(Underscore(typeName)))])
  }

  /** The link a reference gives: one for a `Type/id` reference whose type
      is among the labels. */
  function LinkOf(ref: string, labels: seq<Json>): Option<Json>
  {
    var parts := Split(ref, "/");
    if |parts| == 2 && Str(parts[0]) in labels then Some(Link(parts[0], parts[1])) else None
  }

  /** The loop of `_render_dialect` from a reference on. A reference of an
      unexpected shape is skipped after the warning reads the record's type
      and id; `None` has no `split`. */
  function Links(refs: seq<Option<string>>, labels: seq<Json>, simplified: Fields): (r: Result<seq<Json>>)
    decreases |refs|
  {
    if refs == [] then Ok([])
    else if refs[0].None? then Err(AttributeError("'NoneType' object has no attribute 'split'"))
    else if |Split(refs[0].value, "/")| != 2 && !Has(simplified, "resourceType") then Err(KeyError("resourceType"))
    else if |Split(refs[0].value, "/")| != 2 && !Has(simplified, "id") then Err(KeyError("id"))
    else
      match LinkOf(refs[0].value, labels)
      case None => Links(refs[1..], labels, simplified)
      case Some(l) =>
        var rest :- Links(refs[1..], labels, simplified);
        Ok([l] + rest)
  }

  /** A `Type/id` reference links to `id` with the type's underscored name
      exactly when the type is a label. */
  lemma LinkOfShape(typeName: string, id: string, labels: seq<Json>)
    requires '/' !in typeName && '/' !in id
    ensures LinkOf(typeName + "/" + id, labels) == if Str(typeName) in labels then Some(Link(typeName, id)) else None
  {
    SplitPair(typeName, '/', id);
    assert typeName + "/" + id == typeName + ['/'] + id;
  }

  /** A reference that gives a link is a `Type/id` reference. */
  lemma LinkOfSound(ref: string, labels: seq<Json>)
    requires LinkOf(ref, labels).Some?
    ensures var parts := Split(ref, "/");
            ref == parts[0] + "/" + parts[1] && '/' !in parts[0] && '/' !in parts[1]
            && Str(parts[0]) in labels && LinkOf(ref, labels) == Some(Link(parts[0], parts[1]))
  {
    TwoPieces(ref, '/');
  }

  /** The first reference's link, if any, ahead of the rest's links. */
  lemma LinksHead(refs: seq<Option<string>>, labels: seq<Json>, simplified: Fields)
    requires refs != [] && Links(refs, labels, simplified).Ok?
    ensures refs[0].Some? && Links(refs[1..], labels, simplified).Ok?
    ensures Links(refs, labels, simplified).value
            == (if LinkOf(refs[0].value, labels).Some? then [LinkOf(refs[0].value, labels).value] else [])
               + Links(refs[1..], labels, simplified).value
  {
  }

  /** Every link comes from a reference. */
  lemma {:induction false} LinksSound(refs: seq<Option<string>>, labels: seq<Json>, simplified: Fields)
    requires Links(refs, labels, simplified).Ok?
    ensures forall j :: 0 <= j < |Links(refs, labels, simplified).value| ==>
              exists i :: 0 <= i < |refs| && refs[i].Some? && LinkOf(refs[i].value, labels) == Some(Links(refs, labels, simplified).value[j])
    decreases |refs|
  {
    if refs != [] {
      var rest := refs[1..];
      LinksHead(refs, labels, simplified);
      LinksSound(rest, labels, simplified);
      var ls := Links(refs, labels, simplified).value;
      var lr := Links(rest, labels, simplified).value;
      forall j | 0 <= j < |ls|
        ensures exists i :: 0 <= i < |refs| && refs[i].Some? && LinkOf(refs[i].value, labels) == Some(ls[j])
      {
        LinkFrom(refs, labels, ls, lr, j);
      }
    }
  }

  /** The witness for one link: the first reference, or one of the rest. */
  lemma LinkFrom(refs: seq<Option<string>>, labels: seq<Json>, ls: seq<Json>, lr: seq<Json>, j: nat)
    requires refs != [] && refs[0].Some? && j < |ls|
    requires ls == (if LinkOf(refs[0].value, labels).Some? then [LinkOf(refs[0].value, labels).value] else []) + lr
    requires forall j :: 0 <= j < |lr| ==> exists i :: 0 <= i < |refs[1..]| && refs[1..][i].Some? && LinkOf(refs[1..][i].value, labels) == Some(lr[j])
    ensures exists i :: 0 <= i < |refs| && refs[i].Some? && LinkOf(refs[i].value, labels) == Some(ls[j])
  {
    var h := if LinkOf(refs[0].value, labels).Some? then 1 else 0;
    if j < h {
      assert LinkOf(refs[0].value, labels) == Some(ls[j]);
    } else {
      assert ls[j] == lr[j - h];
      var i :| 0 <= i < |refs[1..]| && refs[1..][i].Some? && LinkOf(refs[1..][i].value, labels) == Some(lr[j - h]);
      assert refs[i + 1] == refs[1..][i];
    }
  }

  /** Every reference that gives a link has it among the links. */
  lemma {:induction false} LinksComplete(refs: seq<Option<string>>, labels: seq<Json>, simplified: Fields)
    requires Links(refs, labels, simplified).Ok?
    ensures forall i :: 0 <= i < |refs| && refs[i].Some? && LinkOf(refs[i].value, labels).Some? ==>
              LinkOf(refs[i].value, labels).value in Links(refs, labels, simplified).value
    decreases |refs|
  {
    if refs != [] {
      var rest := refs[1..];
      LinksHead(refs, labels, simplified);
      LinksComplete(rest, labels, simplified);
      var ls := Links(refs, labels, simplified).value;
      forall i | 0 <= i < |refs| && refs[i].Some? && LinkOf(refs[i].value, labels).Some?
        ensures LinkOf(refs[i].value, labels).value in ls
      {
        if i > 0 { assert rest[i - 1] == refs[i]; }
      }
    }
  }

  /** Links already made, followed by those still to come. */
  function Prefixed(links: seq<Json>, r: Result<seq<Json>>): Result<seq<Json>>
  {
    if r.Err? then r else Ok(links + r.value)
  }

  /** The graph-loader record: id, underscored type, links and the record. */
  function Gen3Record(simplified: Fields, refs: seq<Option<string>>, schemas: Json): (r: Result<Json>)
  {
    if !schemas.Obj? then Err(AttributeError("values"))
    else
      var labels :- Titles(Values(schemas.fields));
      var links :- Links(refs, labels, simplified);
      var id :- Index(simplified, "id");
      var rt :- Index(simplified, "resourceType");
      if !rt.Str? then Err(TypeError("expected string or bytes-like object"))
      else Ok(Obj([("id", id), ("name", Str(Underscore(rt.s))), ("relations", Arr(links)), ("object", Obj(simplified))]))
  }

  /** The record is keyed `id`, `name`, `relations`, `object`, and is the
      simplified record wrapped with its links. */
  lemma Gen3RecordShape(simplified: Fields, refs: seq<Option<string>>, schemas: Json)
    requires Gen3Record(simplified, refs, schemas).Ok?
    ensures var r := Gen3Record(simplified, refs, schemas).value;
            r.Obj? && Keys(r.fields) == ["id", "name", "relations", "object"]
            && Get(r.fields, "id") == Get(simplified, "id")
            && Get(r.fields, "object") == Some(Obj(simplified))
            && At(simplified, "resourceType").Str?
            && Get(r.fields, "name") == Some(Str(Underscore(At(simplified, "resourceType").s)))
  {
    Gen3RecordValue(simplified, refs, schemas);
    FourEntries(Gen3Record(simplified, refs, schemas).value.fields);
  }

  /** The record built from the simplified record's id and type. */
  lemma Gen3RecordValue(simplified: Fields, refs: seq<Option<string>>, schemas: Json)
    requires Gen3Record(simplified, refs, schemas).Ok?
    ensures schemas.Obj? && Titles(Values(schemas.fields)).Ok?
    ensures Links(refs, Titles(Values(schemas.fields)).value, simplified).Ok?
    ensures Has(simplified, "id") && Has(simplified, "resourceType") && At(simplified, "resourceType").Str?
    ensures Gen3Record(simplified, refs, schemas).value
            == Obj([("id", At(simplified, "id")), ("name", Str(Underscore(At(simplified, "resourceType").s))),
                    ("relations", Arr(Links(refs, Titles(Values(schemas.fields)).value, simplified).value)), ("object", Obj(simplified))])
  {
  }

  /** The keys and lookups of a four-entry dict with distinct keys. */
  lemma FourEntries(p: Fields)
    requires |p| == 4
    requires p[0].0 != p[1].0 && p[0].0 != p[2].0 && p[0].0 != p[3].0
             && p[1].0 != p[2].0 && p[1].0 != p[3].0 && p[2].0 != p[3].0
    ensures Keys(p) == [p[0].0, p[1].0, p[2].0, p[3].0]
    ensures Get(p, p[0].0) == Some(p[0].1) && Get(p, p[1].0) == Some(p[1].1)
            && Get(p, p[2].0) == Some(p[2].1) && Get(p, p[3].0) == Some(p[3].1)
  {
    assert p[0..] == p;
    GetStep(p, 0, p[1].0);
    GetStep(p, 0, p[2].0);
    GetStep(p, 1, p[2].0);
    GetStep(p, 0, p[3].0);
    GetStep(p, 1, p[3].0);
    GetStep(p, 2, p[3].0);
    GetStep(p, 3, p[3].0);
  }

  /** One reference of the loop, taken from the sequence. */
  lemma LinksAt(refs: seq<Option<string>>, i: nat, labels: seq<Json>, simplified: Fields)
    requires i < |refs|
    ensures Links(refs[i..], labels, simplified)
            == if refs[i].None? then Err(AttributeError("'NoneType' object has no attribute 'split'"))
               else if |Split(refs[i].value, "/")| != 2 && !Has(simplified, "resourceType") then Err(KeyError("resourceType"))
               else if |Split(refs[i].value, "/")| != 2 && !Has(simplified, "id") then Err(KeyError("id"))
               else if LinkOf(refs[i].value, labels).None? then Links(refs[i + 1..], labels, simplified)
               else Prefixed([LinkOf(refs[i].value, labels).value], Links(refs[i + 1..], labels, simplified))
  {
    assert refs[i..][0] == refs[i] && refs[i..][1..] == refs[i + 1..];
  }

  lemma PrefixedStep(links: seq<Json>, l: Json, r: Result<seq<Json>>)
    ensures Prefixed(links, Prefixed([l], r)) == Prefixed(links + [l], r)
  {
    if r.Ok? {
      assert links + ([l] + r.value) == links + [l] + r.value;
    }
  }

  /** `_render_dialect`: other dialects pass the record through; GEN3 wraps
      it as a graph-loader record with a link per known `Type/id`
      reference. */
  method RenderDialect(simplified: Fields, references: seq<Option<string>>, dialect: string, schemas: Json)
    returns (r: Result<Json>)
    ensures dialect != "GEN3" ==> r == Ok(Obj(simplified))
    ensures dialect == "GEN3" ==> r == Gen3Record(simplified, references, schemas)
  {
    if dialect != "GEN3" {
      return Ok(Obj(simplified));
    }
    if !schemas.Obj? {
      return Err(AttributeError("values"));
    }
    var labels :- Titles(Values(schemas.fields));
    var links: seq<Json> := [];
    var i := 0;
    assert references[0..] == references;
    assert Links(references, labels, simplified).Ok? ==> [] + Links(references, labels, simplified).value == Links(references, labels, simplified).value;
    while i < |references|
      invariant 0 <= i <= |references|
      invariant Links(references, labels, simplified) == Prefixed(links, Links(references[i..], labels, simplified))
    {
      LinksAt(references, i, labels, simplified);
      var ref := references[i];
      if ref.None? {
        return Err(AttributeError("'NoneType' object has no attribute 'split'"));
      }
      var parts := Split(ref.value, "/");
      if |parts| != 2 {
        if !Has(simplified, "resourceType") {
          return Err(KeyError("resourceType"));
        }
        if !Has(simplified, "id") {
          return Err(KeyError("id"));
        }
      } else if Str(parts[0]) in labels {
        PrefixedStep(links, Link(parts[0], parts[1]), Links(references[i + 1..], labels, simplified));
        links := links + [Link(parts[0], parts[1])];
      }
      i := i + 1;
    }
    assert references[i..] == [];
    assert links + [] == links;
    var id :- Index(simplified, "id");
    var rt :- Index(simplified, "resourceType");
    if !rt.Str? {
      return Err(TypeError("expected string or bytes-like object"));
    }
    return Ok(Obj([("id", id), ("name", Str(Underscore(rt.s))), ("relations", Arr(links)), ("object", Obj(simplified))]));
  }

  // ---------------------------------------------------------------------
  // check_simplified_schemas

  /** `[k for k in keys if k not in properties]` */
  function ExtraFields(ks: seq<string>, props: Json): (r: Result<seq<string>>)
    ensures props.Obj? ==> r.Ok? && forall k :: k in r.value <==> k in ks && !Has(props.fields, k)
    decreases |ks|
  {
    if ks == [] then Ok([])
    else
      var known :- InJ(ks[0], props);
      var rest :- ExtraFields(ks[1..], props);
      Ok((if known then [] else [ks[0]]) + rest)
  }

  /** `check_simplified_schemas`: the record's underscored type must be a
      schema, and each of its keys one of that schema's properties. */
  function CheckSimplifiedSchemas(simplified: Fields, schemas: Json): (r: Result<()>)
  {
    var rt :- Index(simplified, "resourceType");
    if !rt.Str? then Err(TypeError("expected string or bytes-like object"))
    else
      var name := Underscore(rt.s);
      var known :- InJ(name, schemas);
      if !known then Err(AssertionError(name + " not in schemas"))
      else
        var schema :- Subscript(schemas, Str(name));
        var props :- Subscript(schema, Str("properties"));
        var extra :- ExtraFields(Keys(simplified), props);
        if |extra| != 0 then Err(AssertionTuple("extra_fields_not_in_schema", name, extra)) else Ok(())
  }

  /** A record whose underscored type has no schema fails the assertion. */
  lemma CheckUnknown(simplified: Fields, schemas: Fields, name: string)
    requires Get(simplified, "resourceType").Some? && Get(simplified, "resourceType").value.Str?
    requires name == Underscore(Get(simplified, "resourceType").value.s)
    requires !Has(schemas, name)
    ensures CheckSimplifiedSchemas(simplified, Obj(schemas)) == Err(AssertionError(name + " not in schemas"))
  {
  }

  /** For a dict schema with dict properties, the check passes exactly when
      every key of the record is among the properties. */
  lemma CheckIff(simplified: Fields, schemas: Fields, name: string, props: Fields)
    requires Get(simplified, "resourceType").Some? && Get(simplified, "resourceType").value.Str?
    requires name == Underscore(Get(simplified, "resourceType").value.s)
    requires Has(schemas, name) && At(schemas, name).Obj? && Get(At(schemas, name).fields, "properties") == Some(Obj(props))
    ensures CheckSimplifiedSchemas(simplified, Obj(schemas)).Ok? <==> forall k :: Has(simplified, k) ==> Has(props, k)
  {
    CheckReaches(simplified, schemas, name, props);
    NoExtra(Keys(simplified), props);
  }

  lemma CheckReaches(simplified: Fields, schemas: Fields, name: string, props: Fields)
    requires Get(simplified, "resourceType").Some? && Get(simplified, "resourceType").value.Str?
    requires name == Underscore(Get(simplified, "resourceType").value.s)
    requires Has(schemas, name) && At(schemas, name).Obj? && Get(At(schemas, name).fields, "properties") == Some(Obj(props))
    ensures CheckSimplifiedSchemas(simplified, Obj(schemas)).Ok? <==> |ExtraFields(Keys(simplified), Obj(props)).value| == 0
  {
    assert Index(simplified, "resourceType") == Ok(Get(simplified, "resourceType").value);
    assert InJ(name, Obj(schemas)) == Ok(true);
    assert Subscript(Obj(schemas), Str(name)) == Ok(At(schemas, name));
    assert Subscript(At(schemas, name), Str("properties")) == Ok(Obj(props));
  }

  /** The check fails, when it reaches the properties, with the tuple of
      the record's underscored type and its keys outside the properties, in
      order. */
  lemma CheckExtra(simplified: Fields, schemas: Fields, name: string, props: Fields)
    requires Get(simplified, "resourceType").Some? && Get(simplified, "resourceType").value.Str?
    requires name == Underscore(Get(simplified, "resourceType").value.s)
    requires Has(schemas, name) && At(schemas, name).Obj? && Get(At(schemas, name).fields, "properties") == Some(Obj(props))
    ensures var extra := ExtraFields(Keys(simplified), Obj(props)).value;
            CheckSimplifiedSchemas(simplified, Obj(schemas)) ==
              if |extra| == 0 then Ok(()) else Err(AssertionTuple("extra_fields_not_in_schema", name, extra))
  {
    assert Index(simplified, "resourceType") == Ok(Get(simplified, "resourceType").value);
    assert InJ(name, Obj(schemas)) == Ok(true);
    assert Subscript(Obj(schemas), Str(name)) == Ok(At(schemas, name));
    assert Subscript(At(schemas, name), Str("properties")) == Ok(Obj(props));
  }

  lemma NoExtra(ks: seq<string>, props: Fields)
    ensures |ExtraFields(ks, Obj(props)).value| == 0 <==> forall k :: k in ks ==> Has(props, k)
  {
    var extra := ExtraFields(ks, Obj(props)).value;
    if |extra| != 0 {
      assert extra[0] in extra;
    }
  }
}
