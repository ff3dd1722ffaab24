// iceberg_tools/util.py: which files are read, how a Bundle or List is
// unrolled into its entries, and the emitter that keeps one output file
// handle per record name.
module Util {
  import opened Text
  import opened Json

  /** `_is_json_file`: the names the directory reader takes. */
  predicate IsJsonFile(name: string)
  {
    EndsWith(name, "json.gz") || EndsWith(name, "json")
  }

  lemma {:induction false} EndsWithSuffix(stem: string, suffix: string)
    ensures EndsWith(stem + suffix, suffix)
  {
    assert (stem + suffix)[|stem|..] == suffix;
  }

  /** `.json`, `.ndjson` and `.json.gz` files are read. */
  lemma JsonFilesRead(stem: string)
    ensures IsJsonFile(stem + ".json") && IsJsonFile(stem + ".ndjson") && IsJsonFile(stem + ".json.gz")
  {
    EndsWithSuffix(stem, ".json");
    assert stem + ".json" == (stem + ".") + "json";
    EndsWithSuffix(stem + ".", "json");
    assert stem + ".ndjson" == (stem + ".nd") + "json";
    EndsWithSuffix(stem + ".nd", "json");
    assert stem + ".json.gz" == (stem + ".") + "json.gz";
    EndsWithSuffix(stem + ".", "json.gz");
  }

  /** A gzipped file is read exactly when its uncompressed name ends in
      `json`. */
  lemma {:induction false} GzRead(stem: string)
    ensures IsJsonFile(stem + ".gz") <==> EndsWith(stem, "json")
  {
    var s := stem + ".gz";
    if |s| >= 4 {
      assert s[|s| - 4..][1] == '.';
    }
    if EndsWith(stem, "json") {
      assert s[|s| - 7..] == stem[|stem| - 4..] + ".gz";
    }
    if EndsWith(s, "json.gz") {
      assert stem[|stem| - 4..] == s[|s| - 7..][..4];
    }
  }

  /** The test is on the ending only: a name with no extension at all
      that happens to end in `json` is read too. */
  lemma BareJsonRead()
    ensures IsJsonFile("notjson")
  {
    EndsWithSuffix("not", "json");
    assert "not" + "json" == "notjson";
  }

  // ---- Bundles and Lists

  /** A parsed resource, reduced to what the entry iterator inspects. */
  datatype Resource = Resource(resourceType: string, id: string, entry: Option<seq<Option<Entry>>>)

  /** A Bundle entry carries `resource`, a List entry `item`; anything
      else has neither. */
  datatype Entry = BundleEntry(resource: Option<Resource>) | ListEntry(item: Option<Resource>) | OtherEntry

  datatype ParseResult = ParseResult(object: Option<Json>, path: string, resource: Option<Resource>,
                                     offset: nat, exception: Option<string>)

  /** `_has_entries` */
  predicate HasEntries(p: ParseResult)
  {
    p.resource.Some? && p.resource.value.resourceType in ["Bundle", "List"] && p.resource.value.entry.Some?
  }

  /** What a generator yielded before it stopped, and the exception that
      stopped it, if any. */
  datatype Yielded = Yielded(items: seq<ParseResult>, error: Option<PyError>)

  /** The resource an entry carries, when it carries one. */
  function Carried(e: Entry): Option<Resource>
  {
    match e
    case BundleEntry(r) => r
    case ListEntry(r) => r
    case OtherEntry => None
  }

  /** The entries from index `i` on: a None entry ends the iteration, an
      entry with neither `resource` nor `item` raises AttributeError. */
  function EntriesFrom(path: string, es: seq<Option<Entry>>, i: nat): (r: Yielded)
    requires i <= |es|
    ensures |r.items| <= |es| - i
    decreases |es| - i
  {
    if i == |es| then Yielded([], None)
    else match es[i]
      case None => Yielded([], None)
      case Some(OtherEntry) => Yielded([], Some(AttributeError("item")))
      case Some(e) =>
        var rest := EntriesFrom(path, es, i + 1);
        Yielded([ParseResult(None, path, Carried(e), i, None)] + rest.items, rest.error)
  }

  /** `_entry_iterator` */
  function Entries(p: ParseResult): (r: Yielded)
  {
    if !HasEntries(p) then Yielded([p], None)
    else EntriesFrom(p.path, p.resource.value.entry.value, 0)
  }

  /** The entries before the first None (or unreadable) entry */
  predicate AllCarried(es: seq<Option<Entry>>, n: nat)
  {
    n <= |es| && forall j :: 0 <= j < n ==> es[j].Some? && !es[j].value.OtherEntry?
  }

  /** A resource that is not a Bundle or List with entries is yielded
      unchanged, once. */
  lemma NonBundleOnce(p: ParseResult)
    requires !HasEntries(p)
    ensures Entries(p) == Yielded([p], None)
  {
  }

  /** Entry `j` is yielded at position `j`, with offset `j`, the bundle's
      path and the entry's resource, for every entry before the first None
      or unreadable one; the iteration stops there. */
  lemma {:induction false} EntriesYielded(path: string, es: seq<Option<Entry>>, i: nat, n: nat)
    requires i <= n && AllCarried(es, n)
    requires n == |es| || es[n].None? || es[n].value.OtherEntry?
    ensures |EntriesFrom(path, es, i).items| == n - i
    ensures forall j :: i <= j < n ==>
              EntriesFrom(path, es, i).items[j - i] == ParseResult(None, path, Carried(es[j].value), j, None)
    ensures EntriesFrom(path, es, i).error == if n < |es| && es[n].Some? then Some(AttributeError("item")) else None
    decreases n - i
  {
    if i < n {
      EntriesYielded(path, es, i + 1, n);
      var rest := EntriesFrom(path, es, i + 1);
      var r := EntriesFrom(path, es, i);
      assert r.items == [ParseResult(None, path, Carried(es[i].value), i, None)] + rest.items;
      forall j | i < j < n ensures r.items[j - i] == ParseResult(None, path, Carried(es[j].value), j, None) {
        assert r.items[j - i] == rest.items[j - (i + 1)];
      }
    }
  }

  /** The generator, drained into a list. */
  method EntryIterator(p: ParseResult) returns (out: seq<ParseResult>, error: Option<PyError>)
    ensures Yielded(out, error) == Entries(p)
  {
    if !HasEntries(p) {
      return [p], None;
    }
    var es := p.resource.value.entry.value;
    out, error := [], None;
    var offset := 0;
    assert [] + EntriesFrom(p.path, es, 0).items == EntriesFrom(p.path, es, 0).items;
    while offset < |es|
      invariant 0 <= offset <= |es|
      invariant |out| == offset
      invariant Entries(p) == Yielded(out + EntriesFrom(p.path, es, offset).items, EntriesFrom(p.path, es, offset).error)
    {
      if es[offset].None? {
        assert out + [] == out;
        return;
      }
      var e := es[offset].value;
      if e.OtherEntry? {
        assert out + [] == out;
        error := Some(AttributeError("item"));
        return;
      }
      var res := Carried(e);
      ghost var rest := EntriesFrom(p.path, es, offset + 1);
      assert (out + [ParseResult(None, p.path, res, offset, None)]) + rest.items ==
             out + ([ParseResult(None, p.path, res, offset, None)] + rest.items);
      out := out + [ParseResult(None, p.path, res, offset, None)];
      offset := offset + 1;
    }
    assert out + [] == out;
  }

  // ---- EmitterContextManager

  /** An open output file, known by its path and mode. */
  datatype Handle = Handle(path: string, mode: string)

  /** `output_path / f"{name}.ndjson"` opened with the manager's mode. */
  function HandleFor(outputPath: string, mode: string, name: string): Handle
  {
    Handle(outputPath + "/" + name + ".ndjson", mode)
  }

  function Names(es: seq<(string, Handle)>): (r: seq<string>)
    ensures |r| == |es|
    ensures forall i :: 0 <= i < |es| ==> r[i] == es[i].0
  {
    seq(|es|, i requires 0 <= i < |es| => es[i].0)
  }

  function Handles(es: seq<(string, Handle)>): (r: seq<Handle>)
    ensures |r| == |es|
    ensures forall i :: 0 <= i < |es| ==> r[i] == es[i].1
  {
    seq(|es|, i requires 0 <= i < |es| => es[i].1)
  }

  /** The output directory's open files, one per record name.  `openedFiles`
      and `closedFiles` record, in order, the files the manager opened and
      closed. */
  class EmitterContextManager {
    var outputPath: string
    var fileMode: string
    var emitters: seq<(string, Handle)>
    var openedFiles: seq<Handle>
    var closedFiles: seq<Handle>

    /** Every open handle belongs to one name and is the file for it, and
        every file opened is one of them. */
    ghost predicate Valid()
      reads this
    {
      (forall i, j :: 0 <= i < j < |emitters| ==> emitters[i].0 != emitters[j].0) &&
      (forall i :: 0 <= i < |emitters| ==> emitters[i].1 == HandleFor(outputPath, fileMode, emitters[i].0)) &&
      openedFiles == Handles(emitters)
    }

    constructor(outputPath: string, fileMode: string)
      ensures Valid()
      ensures this.outputPath == outputPath && this.fileMode == fileMode
      ensures emitters == [] && openedFiles == [] && closedFiles == []
    {
      this.outputPath := outputPath;
      this.fileMode := fileMode;
      emitters := [];
      openedFiles := [];
      closedFiles := [];
    }

    /** `emit(name)`: the handle for `name`, opened on first use. */
    method Emit(name: string) returns (h: Handle)
      requires Valid()
      modifies this
      ensures Valid()
      ensures h == HandleFor(outputPath, fileMode, name)
      ensures outputPath == old(outputPath) && fileMode == old(fileMode) && closedFiles == old(closedFiles)
      ensures name in old(Names(emitters)) ==> emitters == old(emitters) && openedFiles == old(openedFiles)
      ensures name !in old(Names(emitters)) ==> emitters == old(emitters) + [(name, h)] && openedFiles == old(openedFiles) + [h]
    {
      var i := 0;
      while i < |emitters|
        invariant 0 <= i <= |emitters|
        invariant forall j :: 0 <= j < i ==> emitters[j].0 != name
      {
        if emitters[i].0 == name {
          assert name in Names(emitters) by { assert Names(emitters)[i] == name; }
          return emitters[i].1;
        }
        i := i + 1;
      }
      assert name !in Names(emitters);
      h := HandleFor(outputPath, fileMode, name);
      emitters := emitters + [(name, h)];
      openedFiles := openedFiles + [h];
    }

    /** `__exit__`: every handle is closed, in the order they were opened. */
    method Exit()
      requires Valid()
      modifies this
      ensures Valid()
      ensures emitters == old(emitters) && openedFiles == old(openedFiles)
      ensures outputPath == old(outputPath) && fileMode == old(fileMode)
      ensures closedFiles == old(closedFiles) + old(openedFiles)
    {
      var i := 0;
      while i < |emitters|
        invariant 0 <= i <= |emitters|
        invariant emitters == old(emitters) && openedFiles == old(openedFiles)
        invariant outputPath == old(outputPath) && fileMode == old(fileMode)
        invariant closedFiles == old(closedFiles) + Handles(emitters)[..i]
      {
        assert Handles(emitters)[..i + 1] == Handles(emitters)[..i] + [emitters[i].1];
        closedFiles := closedFiles + [emitters[i].1];
        i := i + 1;
      }
      assert Handles(emitters)[..i] == Handles(emitters);
    }
  }

  /** No file is opened twice: the names behind the open handles differ,
      and so do their files. */
  lemma OpenedOnce(outputPath: string, mode: string, es: seq<(string, Handle)>)
    requires forall i, j :: 0 <= i < j < |es| ==> es[i].0 != es[j].0
    requires forall i :: 0 <= i < |es| ==> es[i].1 == HandleFor(outputPath, mode, es[i].0)
    ensures forall i, j :: 0 <= i < j < |es| ==> Handles(es)[i] != Handles(es)[j]
  {
    forall i, j | 0 <= i < j < |es| ensures Handles(es)[i] != Handles(es)[j] {
      if Handles(es)[i] == Handles(es)[j] {
        HandleForInjective(outputPath, mode, es[i].0, es[j].0);
      }
    }
  }

  lemma HandleForInjective(outputPath: string, mode: string, a: string, b: string)
    requires HandleFor(outputPath, mode, a) == HandleFor(outputPath, mode, b)
    ensures a == b
  {
    var pa := outputPath + "/" + a + ".ndjson";
    var pb := outputPath + "/" + b + ".ndjson";
    assert |a| == |b|;
    assert a == pa[|outputPath| + 1..|pa| - 7];
    assert b == pb[|outputPath| + 1..|pb| - 7];
  }
}
