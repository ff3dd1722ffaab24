// The schema viewer's naming helpers: a schema file name becomes the
// title of its entity, and a nested dictionary is flattened to its leaves.

module SchemaViewer {

  import opened Text
  import opened Json

  /** The name with the `.yaml` suffix and everything after it cut off. */
  function Stem(file: string): string
  {
    FirstPiece(file, ".yaml")
  }

  /** What `convert_file_to_title` returns. */
  function FileTitle(file: string): string
  {
    var stem := Stem(file);
    if '_' in stem then Join(TitleAll(Split(stem, "_")), "") else Capitalize(stem)
  }

  function TitleAll(parts: seq<string>): (r: seq<string>)
    ensures |r| == |parts|
    ensures forall i :: 0 <= i < |parts| ==> r[i] == Title(parts[i])
  {
    if parts == [] then [] else TitleAll(parts[..|parts| - 1]) + [Title(parts[|parts| - 1])]
  }

  /** `convert_file_to_title(file)`: the pieces are title-cased in place. */
  method ConvertFileToTitle(file: string) returns (r: string)
    ensures r == FileTitle(file)
  {
    var stem := FirstPiece(file, ".yaml");
    if '_' in stem {
      var parts := Split(stem, "_");
      ghost var pieces := parts;
      var i := 0;
      while i < |parts|
        invariant 0 <= i <= |parts| == |pieces|
        invariant forall j :: 0 <= j < i ==> parts[j] == Title(pieces[j])
        invariant forall j :: i <= j < |parts| ==> parts[j] == pieces[j]
      {
        parts := parts[i := Title(parts[i])];
        i := i + 1;
      }
      assert parts == TitleAll(pieces);
      r := Join(parts, "");
    } else {
      r := Capitalize(stem);
    }
  }

  /** Whatever follows `.yaml` is ignored. */
  lemma YamlSuffixDropped(stem: string, rest: string)
    requires '.' !in stem
    ensures Stem(stem + ".yaml" + rest) == stem
    ensures FileTitle(stem + ".yaml" + rest) == FileTitle(stem)
  {
    IndexOfLead(stem, ".yaml", rest);
    var s := stem + ".yaml" + rest;
    assert s[..|stem|] == stem;
    assert !Contains(stem, ".yaml") by {
      AbsentChar(stem, ".yaml", '.');
    }
  }

  /** A name without underscores is capitalised. */
  lemma NoUnderscoreCapitalized(file: string)
    requires '_' !in Stem(file)
    ensures FileTitle(file) == Capitalize(Stem(file))
    ensures Stem(file) != [] ==> FileTitle(file)[0] == UpperChar(Stem(file)[0])
  {
  }

  /** A two-word name: each word title-cased, then run together. */
  lemma TwoWords(a: string, b: string)
    requires '_' !in a && '_' !in b && '.' !in a && '.' !in b
    ensures FileTitle(a + "_" + b + ".yaml") == Title(a) + Title(b)
  {
    var stem := a + "_" + b;
    StemOfTwo(a, b);
    assert '_' in stem by { assert stem[|a|] == '_'; }
    assert stem == a + ['_'] + b;
    SplitPair(a, '_', b);
    JoinTwoTitles(a, b);
  }

  lemma StemOfTwo(a: string, b: string)
    requires '.' !in a && '.' !in b
    ensures Stem(a + "_" + b + ".yaml") == a + "_" + b
  {
    YamlSuffixDropped(a + "_" + b, "");
    assert a + "_" + b + ".yaml" + "" == a + "_" + b + ".yaml";
  }

  lemma JoinTwoTitles(a: string, b: string)
    ensures Join(TitleAll([a, b]), "") == Title(a) + Title(b)
  {
    var ts := TitleAll([a, b]);
    assert ts == [Title(a), Title(b)];
    assert ts[1..] == [Title(b)];
  }

  /** Title-casing keeps each piece's length, so the title is as long as
      the pieces run together. */
  lemma {:induction false} TitleLength(parts: seq<string>)
    ensures |Join(TitleAll(parts), "")| == |Join(parts, "")|
    decreases |parts|
  {
    if |parts| > 1 {
      TitleLength(parts[1..]);
      assert TitleAll(parts)[1..] == TitleAll(parts[1..]);
    }
  }

  // ---------------------------------------------------------------------
  // recursive_items

  /** `recursive_items(dictionary)`: the non-dict leaves as (key, value),
      a dict value replaced by its own leaves, in key order. */
  function RecursiveItems(f: Fields): (r: Fields)
    ensures forall i :: 0 <= i < |r| ==> !r[i].1.Obj?
    decreases f
  {
    if f == [] then []
    else
      var (k, v) := f[0];
      assert f[0] in f && f[0].1 < f[0];
      (if v.Obj? then RecursiveItems(v.fields) else [(k, v)]) + RecursiveItems(f[1..])
  }

  /** A dictionary with no dict values is its own list of items. */
  lemma {:induction false} FlatItems(f: Fields)
    requires forall i :: 0 <= i < |f| ==> !f[i].1.Obj?
    ensures RecursiveItems(f) == f
  {
    if f != [] {
      FlatItems(f[1..]);
    }
  }

  /** The items of two dictionaries run together are those of each, in turn. */
  lemma {:induction false} ItemsAppend(a: Fields, b: Fields)
    ensures RecursiveItems(a + b) == RecursiveItems(a) + RecursiveItems(b)
  {
    if a != [] {
      assert (a + b)[0] == a[0];
      assert (a + b)[1..] == a[1..] + b;
      ItemsAppend(a[1..], b);
    } else {
      assert a + b == b;
    }
  }

  /** Every leaf is found: a non-dict value is yielded with its key, and a
      dict value's leaves are yielded. */
  lemma {:induction false} LeavesYielded(f: Fields, i: nat)
    requires i < |f|
    ensures !f[i].1.Obj? ==> f[i] in RecursiveItems(f)
    ensures f[i].1.Obj? ==> forall kv :: kv in RecursiveItems(f[i].1.fields) ==> kv in RecursiveItems(f)
  {
    assert f == f[..i] + [f[i]] + f[i + 1..];
    ItemsAppend(f[..i] + [f[i]], f[i + 1..]);
    ItemsAppend(f[..i], [f[i]]);
    assert RecursiveItems([f[i]]) == (if f[i].1.Obj? then RecursiveItems(f[i].1.fields) else [f[i]]) + RecursiveItems([]);
  }
}
