// Cleaning of OMOP extracts: keys lower-cased and values stripped, keys
// upper-cased in place, empty CSV cells filled, and the concept table cut
// down to five columns. Files are given as their parsed contents: an
// NDJSON file as its list of values, a CSV file as its header and the
// cells of each line.

module CleanData {

  import opened Text
  import opened Json

  // ---------------------------------------------------------------------
  // Re-keying a dictionary

  /** `{g(k): h(v) for k, v in f.items()}`: a later key that maps to the
      same new key overwrites the value, in the first one's place. */
  function Rekey(f: Fields, g: string -> string, h: Json -> Json): (r: Fields)
    ensures UniqueKeys(r)
  {
    if f == [] then []
    else Put(Rekey(f[..|f| - 1], g, h), g(f[|f| - 1].0), h(f[|f| - 1].1))
  }

  /** The old keys, each mapped by `g`. */
  function Images(f: Fields, g: string -> string): (r: seq<string>)
    ensures |r| == |f|
  {
    seq(|f|, i requires 0 <= i < |f| => g(f[i].0))
  }

  /** The new keys are exactly the images of the old ones. */
  lemma {:induction false} RekeyHas(f: Fields, g: string -> string, h: Json -> Json, k: string)
    ensures Has(Rekey(f, g, h), k) <==> k in Images(f, g)
  {
    if f != [] {
      var init, last := f[..|f| - 1], f[|f| - 1];
      RekeyLast(f, g, h);
      RekeyHas(init, g, h, k);
      PutHas(Rekey(init, g, h), g(last.0), h(last.1), k);
    }
  }

  /** The value under a new key is the image of the last old value whose
      key maps to it. */
  lemma {:induction false} RekeyGet(f: Fields, g: string -> string, h: Json -> Json, i: nat)
    requires i < |f|
    requires forall j :: i < j < |f| ==> g(f[j].0) != g(f[i].0)
    ensures Get(Rekey(f, g, h), g(f[i].0)) == Some(h(f[i].1))
  {
    var init, last := f[..|f| - 1], f[|f| - 1];
    var r, k := Rekey(init, g, h), g(f[i].0);
    RekeyLast(f, g, h);
    if i == |f| - 1 {
      assert Get(Put(r, g(last.0), h(last.1)), k) == Some(h(f[i].1));
    } else {
      assert |init| == |f| - 1 && init[i] == f[i];
      forall j | i < j < |init| ensures g(init[j].0) != g(init[i].0) {
        assert init[j] == f[j];
      }
      RekeyGet(init, g, h, i);
      assert Get(r, k) == Some(h(f[i].1));
      assert g(last.0) != k;
      assert Get(Put(r, g(last.0), h(last.1)), k) == Get(r, k);
    }
  }

  /** One more pair: its key's image is stored last, and its image joins
      the images. */
  lemma RekeyLast(f: Fields, g: string -> string, h: Json -> Json)
    requires f != []
    ensures Rekey(f, g, h) == Put(Rekey(f[..|f| - 1], g, h), g(f[|f| - 1].0), h(f[|f| - 1].1))
    ensures forall k :: k in Images(f, g) <==> k in Images(f[..|f| - 1], g) || k == g(f[|f| - 1].0)
  {
    ImagesLast(f, g);
  }

  /** The images of a list grow by the image of its last key. */
  lemma ImagesLast(f: Fields, g: string -> string)
    requires f != []
    ensures Images(f, g) == Images(f[..|f| - 1], g) + [g(f[|f| - 1].0)]
  {
    var init := f[..|f| - 1];
    var a, b := Images(f, g), Images(init, g) + [g(f[|f| - 1].0)];
    forall i | 0 <= i < |a|
      ensures a[i] == b[i]
    {
      if i < |init| {
        assert init[i] == f[i];
      }
    }
  }

  // ---------------------------------------------------------------------
  // lowercase_keys_strip

  /** A value kept by `lowercase_keys_strip`: `"0"`, `"None"` and None
      become None, anything else its `str()` stripped. */
  function CleanValue(v: Json): Json
  {
    if v != Str("0") && v != Str("None") && v != Null then Str(Strip(Format(v))) else Null
  }

  /** `lowercase_keys_strip(data)` */
  function LowercaseKeysStrip(data: Json): Json
    decreases data
  {
    match data
    case Obj(f) => Obj(Rekey(f, Lower, CleanValue))
    case Arr(xs) => Arr(LowercaseAll(xs))
    case _ => data
  }

  function LowercaseAll(xs: seq<Json>): (r: seq<Json>)
    ensures |r| == |xs|
    decreases xs
  {
    if xs == [] then []
    else
      assert xs[|xs| - 1] in xs;
      LowercaseAll(xs[..|xs| - 1]) + [LowercaseKeysStrip(xs[|xs| - 1])]
  }

  /** Only the three null-ish values are dropped; a number, a bool, a list
      or a nested dict is kept as its string form. */
  lemma CleanValueMeaning(v: Json)
    ensures CleanValue(v) == Null <==> v == Str("0") || v == Str("None") || v == Null
    ensures CleanValue(v) != Null ==> CleanValue(v).Str? && CleanValue(v).s == Strip(Format(v))
    ensures v.Str? && v.s != "0" && v.s != "None" ==> CleanValue(v) == Str(Strip(v.s))
  {
  }

  /** A dict's keys come out lower-cased and distinct, and exactly the
      lower-cased forms of its old keys. */
  lemma DictKeysLowered(f: Fields, k: string)
    ensures UniqueKeys(LowercaseKeysStrip(Obj(f)).fields)
    ensures Has(LowercaseKeysStrip(Obj(f)).fields, k) <==> k in Images(f, Lower)
    ensures Has(LowercaseKeysStrip(Obj(f)).fields, k) ==> k == Lower(k)
  {
    RekeyHas(f, Lower, CleanValue, k);
    if k in Images(f, Lower) {
      var j :| 0 <= j < |f| && Images(f, Lower)[j] == k;
      LowerIdempotent(f[j].0);
    }
  }

  /** The last old key with a given lower-cased form gives its cleaned
      value. */
  lemma DictValueCleaned(f: Fields, i: nat)
    requires i < |f|
    requires forall j :: i < j < |f| ==> Lower(f[j].0) != Lower(f[i].0)
    ensures Get(LowercaseKeysStrip(Obj(f)).fields, Lower(f[i].0)) == Some(CleanValue(f[i].1))
  {
    RekeyGet(f, Lower, CleanValue, i);
  }

  lemma LowerIdempotent(s: string)
    ensures Lower(Lower(s)) == Lower(s)
  {
  }

  /** A list is cleaned element by element; anything else is kept. */
  lemma ListAndScalar(data: Json)
    ensures data.Arr? ==> var r := LowercaseKeysStrip(data);
              r.Arr? && |r.items| == |data.items|
              && forall i :: 0 <= i < |data.items| ==> r.items[i] == LowercaseKeysStrip(data.items[i])
    ensures !data.Arr? && !data.Obj? ==> LowercaseKeysStrip(data) == data
  {
    if data.Arr? {
      LowercaseAllAt(data.items);
    }
  }

  lemma {:induction false} LowercaseAllAt(xs: seq<Json>)
    ensures forall i :: 0 <= i < |xs| ==> LowercaseAll(xs)[i] == LowercaseKeysStrip(xs[i])
  {
    if xs != [] {
      var init := xs[..|xs| - 1];
      LowercaseAllAt(init);
      assert forall i :: 0 <= i < |init| ==> xs[i] == init[i];
    }
  }

  // ---------------------------------------------------------------------
  // JsonKeyUpper

  function Same(v: Json): Json { v }

  /** `{key.upper(): value for key, value in dictionary.items()}` */
  function UpperKeys(f: Fields): Fields
  {
    Rekey(f, Upper, Same)
  }

  /** The upper-cased dict: its keys are the upper-cased old keys, and each
      holds the value of the last old key that upper-cases to it. */
  lemma UpperKeysMeaning(f: Fields, k: string)
    ensures Has(UpperKeys(f), k) <==> k in Images(f, Upper)
    ensures forall i :: 0 <= i < |f| && (forall j :: i < j < |f| ==> Upper(f[j].0) != Upper(f[i].0)) ==>
              Get(UpperKeys(f), Upper(f[i].0)) == Some(f[i].1)
  {
    RekeyHas(f, Upper, Same, k);
    forall i | 0 <= i < |f| && (forall j :: i < j < |f| ==> Upper(f[j].0) != Upper(f[i].0))
      ensures Get(UpperKeys(f), Upper(f[i].0)) == Some(f[i].1)
    {
      RekeyGet(f, Upper, Same, i);
    }
  }

  /** The position of the first value that is not a dict. */
  function FirstNonDict(s: seq<Json>): (n: nat)
    ensures n <= |s|
    ensures forall j :: 0 <= j < n ==> s[j].Obj?
    ensures n < |s| ==> !s[n].Obj?
  {
    if s == [] || !s[0].Obj? then 0 else 1 + FirstNonDict(s[1..])
  }

  /** The loop of `JsonKeyUpper`: each dict of the list is cleared and
      refilled with its upper-cased keys; a value that is not a dict stops
      the loop with the dicts before it already changed. */
  method JsonKeyUpper(data: array<Json>) returns (error: Option<PyError>)
    modifies data
    ensures var n := FirstNonDict(old(data[..]));
            && (error.None? <==> n == data.Length)
            && (error.Some? ==> error.value == AttributeError("items"))
            && forall i :: 0 <= i < data.Length ==>
                 data[i] == if i < n then Obj(UpperKeys(old(data[i]).fields)) else old(data[i])
  {
    ghost var before := data[..];
    var i := 0;
    while i < data.Length
      invariant 0 <= i <= data.Length
      invariant forall j :: 0 <= j < i ==> before[j].Obj? && data[j] == Obj(UpperKeys(before[j].fields))
      invariant forall j :: i <= j < data.Length ==> data[j] == before[j]
    {
      if !data[i].Obj? {
        FirstNonDictAt(before, i);
        return Some(AttributeError("items"));
      }
      data[i] := Obj(UpperKeys(data[i].fields));
      i := i + 1;
    }
    FirstNonDictAt(before, i);
    return None;
  }

  lemma {:induction false} FirstNonDictAt(s: seq<Json>, i: nat)
    requires i <= |s| && forall j :: 0 <= j < i ==> s[j].Obj?
    requires i < |s| ==> !s[i].Obj?
    ensures FirstNonDict(s) == i
  {
    if i > 0 {
      FirstNonDictAt(s[1..], i - 1);
    }
  }

  // ---------------------------------------------------------------------
  // CSV rows

  /** The value of the `i`-th column: its cell, or None past the last one. */
  function Cell(cells: seq<string>, i: nat): Json
  {
    if i < |cells| then Str(cells[i]) else Null
  }

  /** The dict `csv.DictReader` makes of a line: the header names zipped
      with the cells, and None for the names past the last cell. */
  function DictRow(header: seq<string>, cells: seq<string>): (r: Fields)
    ensures UniqueKeys(r)
  {
    if header == [] then []
    else
      var i := |header| - 1;
      Put(DictRow(header[..i], cells), header[i], Cell(cells, i))
  }

  /** The lines the reader yields: a line with no cells is skipped. */
  function Yielded(lines: seq<seq<string>>): (r: seq<seq<string>>)
    ensures |r| <= |lines|
    ensures forall i :: 0 <= i < |r| ==> r[i] != [] && r[i] in lines
  {
    if lines == [] then []
    else
      var last := lines[|lines| - 1];
      Yielded(lines[..|lines| - 1]) + (if last == [] then [] else [last])
  }

  /** The string-keyed part of the rows the reader yields, one per yielded
      line. */
  function Rows(header: seq<string>, lines: seq<seq<string>>): (r: seq<Fields>)
    ensures |r| == |Yielded(lines)|
  {
    var ys := Yielded(lines);
    seq(|ys|, i requires 0 <= i < |ys| => DictRow(header, ys[i]))
  }

  /** The name `json.dump` writes for the reader's restkey None. */
  const RestKey := "null"

  /** The cells past the last header name, which `csv.DictReader` stores
      as a list under its restkey None; nothing when the line has no more
      cells than the header has names. */
  function RestEntry(header: seq<string>, cells: seq<string>): (r: Fields)
    ensures |r| <= 1
  {
    if |cells| <= |header| then []
    else [(RestKey, Arr(seq(|cells| - |header|, k requires 0 <= k < |cells| - |header| => Str(cells[|header| + k]))))]
  }

  /** The dict `csv.DictReader` makes of a line, as `json.dump` writes it:
      the header's names with their cells, then the restkey entry. A lookup
      by a string name never finds the restkey, so the string-keyed part
      `DictRow` is what such lookups see. */
  function ReaderRow(header: seq<string>, cells: seq<string>): Fields
  {
    DictRow(header, cells) + RestEntry(header, cells)
  }

  /** Header `a` and line `1,2`: the extra cell is kept under `null`. */
  lemma ExtraCellKept()
    ensures ReaderRow(["a"], ["1", "2"]) == [("a", Str("1")), (RestKey, Arr([Str("2")]))]
  {
    assert ["a"][..0] == [];
    var extra := seq(1, k requires 0 <= k < 1 => Str(["1", "2"][1 + k]));
    assert extra == [Str("2")];
  }

  /** A lookup that the first part answers is not changed by what follows. */
  lemma {:induction false} GetPrefix(a: Fields, b: Fields, k: string)
    requires Has(a, k)
    ensures Get(a + b, k) == Get(a, k)
  {
    if a[0].0 != k {
      assert (a + b)[1..] == a[1..] + b;
      GetPrefix(a[1..], b, k);
    }
  }

  lemma KeysAppend(a: Fields, b: Fields)
    ensures Keys(a + b) == Keys(a) + Keys(b)
  {
    assert forall i :: 0 <= i < |a + b| ==> Keys(a + b)[i] == (Keys(a) + Keys(b))[i];
  }

  /** Under a header without repeated names, a row has the header's names in
      order, each with its cell, and then the restkey entry exactly when the
      line has more cells than the header has names; that entry holds the
      extra cells in order. */
  lemma DictRowKeys(header: seq<string>, cells: seq<string>)
    requires forall a, b :: 0 <= a < b < |header| ==> header[a] != header[b]
    ensures Keys(DictRow(header, cells)) == header
    ensures forall i :: 0 <= i < |header| ==> Get(DictRow(header, cells), header[i]) == Some(Cell(cells, i))
    ensures Keys(ReaderRow(header, cells)) == header + (if |cells| > |header| then [RestKey] else [])
    ensures forall i :: 0 <= i < |header| ==> Get(ReaderRow(header, cells), header[i]) == Some(Cell(cells, i))
    ensures |cells| > |header| ==>
              ReaderRow(header, cells)[|header|].0 == RestKey
              && ReaderRow(header, cells)[|header|].1.Arr?
              && |ReaderRow(header, cells)[|header|].1.items| == |cells| - |header|
              && forall k :: 0 <= k < |cells| - |header| ==>
                   ReaderRow(header, cells)[|header|].1.items[k] == Str(cells[|header| + k])
  {
    ReaderRowKeys(header, cells);
    ReaderRowRest(header, cells);
    ReaderRowGets(header, cells);
  }

  /** The row's keys: the header's names, then the restkey when there are
      extra cells. */
  lemma ReaderRowKeys(header: seq<string>, cells: seq<string>)
    requires forall a, b :: 0 <= a < b < |header| ==> header[a] != header[b]
    ensures Keys(DictRow(header, cells)) == header
    ensures Keys(ReaderRow(header, cells)) == header + (if |cells| > |header| then [RestKey] else [])
  {
    DictRowNames(header, cells);
    KeysAppend(DictRow(header, cells), RestEntry(header, cells));
  }

  /** Each header name finds its own cell, with or without the restkey
      entry. */
  lemma ReaderRowGets(header: seq<string>, cells: seq<string>)
    requires forall a, b :: 0 <= a < b < |header| ==> header[a] != header[b]
    ensures forall i :: 0 <= i < |header| ==> Get(DictRow(header, cells), header[i]) == Some(Cell(cells, i))
    ensures forall i :: 0 <= i < |header| ==> Get(ReaderRow(header, cells), header[i]) == Some(Cell(cells, i))
  {
    forall i | 0 <= i < |header|
      ensures Get(DictRow(header, cells), header[i]) == Some(Cell(cells, i))
      ensures Get(ReaderRow(header, cells), header[i]) == Some(Cell(cells, i))
    {
      DictRowGet(header, cells, i);
      GetPrefix(DictRow(header, cells), RestEntry(header, cells), header[i]);
    }
  }

  /** A row with one entry per header name has the restkey entry, when
      there is one, at the position past the last name. */
  lemma ReaderRowRest(header: seq<string>, cells: seq<string>)
    requires |DictRow(header, cells)| == |header|
    ensures |cells| > |header| ==>
              ReaderRow(header, cells)[|header|].0 == RestKey
              && ReaderRow(header, cells)[|header|].1.Arr?
              && |ReaderRow(header, cells)[|header|].1.items| == |cells| - |header|
              && forall k :: 0 <= k < |cells| - |header| ==>
                   ReaderRow(header, cells)[|header|].1.items[k] == Str(cells[|header| + k])
  {
  }

  lemma {:induction false} DictRowNames(header: seq<string>, cells: seq<string>)
    requires forall a, b :: 0 <= a < b < |header| ==> header[a] != header[b]
    ensures Keys(DictRow(header, cells)) == header
  {
    if header != [] {
      var n := |header| - 1;
      var init := header[..n];
      DictRowNames(init, cells);
      assert header[n] !in init by {
        assert forall a :: 0 <= a < n ==> init[a] != header[n];
      }
      InitLast(header);
    }
  }

  lemma {:induction false} DictRowGet(header: seq<string>, cells: seq<string>, i: nat)
    requires forall a, b :: 0 <= a < b < |header| ==> header[a] != header[b]
    requires i < |header|
    ensures Get(DictRow(header, cells), header[i]) == Some(Cell(cells, i))
  {
    var n := |header| - 1;
    if i < n {
      var init := header[..n];
      assert init[i] == header[i] != header[n];
      DictRowGet(init, cells, i);
    }
  }

  /** `if row[k] == '': row[k] = fill` over every cell. */
  function FillCells(row: Fields, fill: Json): (r: Fields)
    ensures |r| == |row|
  {
    seq(|row|, i requires 0 <= i < |row| => (row[i].0, if row[i].1 == Str("") then fill else row[i].1))
  }

  /** Filling keeps the keys and every non-empty cell, and leaves no empty
      cell when the filler is not itself empty. */
  lemma FillCellsMeaning(row: Fields, fill: Json)
    ensures Keys(FillCells(row, fill)) == Keys(row)
    ensures forall i :: 0 <= i < |row| && row[i].1 != Str("") ==> FillCells(row, fill)[i] == row[i]
    ensures fill != Str("") ==> forall i :: 0 <= i < |row| ==> FillCells(row, fill)[i].1 != Str("")
  {
  }

  /** The cell loop of the CSV cleaners, overwriting the row's empty cells. */
  method FillRow(row: Fields, fill: Json) returns (r: Fields)
    ensures r == FillCells(row, fill)
  {
    r := row;
    var i := 0;
    while i < |r|
      invariant 0 <= i <= |r| == |row|
      invariant forall j :: 0 <= j < i ==> r[j] == (row[j].0, if row[j].1 == Str("") then fill else row[j].1)
      invariant forall j :: i <= j < |r| ==> r[j] == row[j]
    {
      if r[i].1 == Str("") {
        r := r[i := (r[i].0, fill)];
      }
      i := i + 1;
    }
  }

  /** The records `convert_csv_to_ndjson` writes: each yielded line's
      dict, restkey entry included, with empty cells as "None". */
  function CsvRecords(header: seq<string>, lines: seq<seq<string>>): seq<Fields>
  {
    var ys := Yielded(lines);
    seq(|ys|, i requires 0 <= i < |ys| => FillCells(ReaderRow(header, ys[i]), Str("None")))
  }

  /** `convert_csv_to_ndjson`: one record per row, empty cells as "None". */
  method ConvertCsvToNdjson(header: seq<string>, lines: seq<seq<string>>) returns (out: seq<Fields>)
    ensures out == CsvRecords(header, lines)
  {
    var ys := Yielded(lines);
    var rows := seq(|ys|, j requires 0 <= j < |ys| => ReaderRow(header, ys[j]));
    out := FillRows(rows, Str("None"));
    ghost var want := CsvRecords(header, lines);
    assert forall j :: 0 <= j < |out| ==> out[j] == want[j];
  }

  /** The loop over the reader's rows, filling each one's empty cells. */
  method FillRows(rows: seq<Fields>, fill: Json) returns (out: seq<Fields>)
    ensures |out| == |rows|
    ensures forall j :: 0 <= j < |rows| ==> out[j] == FillCells(rows[j], fill)
  {
    out := [];
    var i := 0;
    while i < |rows|
      invariant 0 <= i <= |rows| && |out| == i
      invariant forall j :: 0 <= j < i ==> out[j] == FillCells(rows[j], fill)
    {
      var record := FillRow(rows[i], fill);
      out := out + [record];
      i := i + 1;
    }
  }

  /** No record written by the CSV cleaner has an empty cell; the restkey
      entry comes through the filling unchanged; and under a header without
      repeated names every record has the header's keys, followed by the
      restkey exactly when its line has more cells than the header. */
  lemma CsvRecordsClean(header: seq<string>, lines: seq<seq<string>>, i: nat)
    requires i < |CsvRecords(header, lines)|
    ensures forall j :: 0 <= j < |CsvRecords(header, lines)[i]| ==> CsvRecords(header, lines)[i][j].1 != Str("")
    ensures var c := Yielded(lines)[i];
            CsvRecords(header, lines)[i][|DictRow(header, c)|..] == RestEntry(header, c)
    ensures var c := Yielded(lines)[i];
            (forall a, b :: 0 <= a < b < |header| ==> header[a] != header[b]) ==>
              Keys(CsvRecords(header, lines)[i]) == header + (if |c| > |header| then [RestKey] else [])
  {
    var c := Yielded(lines)[i];
    var row := ReaderRow(header, c);
    FillCellsMeaning(row, Str("None"));
    var rec := CsvRecords(header, lines)[i];
    var d := |DictRow(header, c)|;
    assert forall j :: d <= j < |row| ==> row[j].1.Arr?;
    assert rec[d..] == RestEntry(header, c);
    if forall a, b :: 0 <= a < b < |header| ==> header[a] != header[b] {
      DictRowKeys(header, c);
    }
  }

  /** The number of lines with at least one cell. */
  function NonEmpty(lines: seq<seq<string>>): (n: nat)
    ensures n <= |lines|
  {
    if lines == [] then 0
    else NonEmpty(lines[..|lines| - 1]) + (if lines[|lines| - 1] == [] then 0 else 1)
  }

  /** The reader misses no line: it yields one row per non-empty line, and
      the non-empty line `j` comes out at the position counting the
      non-empty lines before it, as the header zipped with its cells. */
  lemma {:induction false} YieldedComplete(header: seq<string>, lines: seq<seq<string>>)
    ensures |Yielded(lines)| == NonEmpty(lines)
    ensures forall j :: 0 <= j < |lines| && lines[j] != [] ==>
              && NonEmpty(lines[..j]) < |Yielded(lines)|
              && Yielded(lines)[NonEmpty(lines[..j])] == lines[j]
              && Rows(header, lines)[NonEmpty(lines[..j])] == DictRow(header, lines[j])
  {
    if lines != [] {
      var init := lines[..|lines| - 1];
      YieldedComplete(header, init);
      forall j | 0 <= j < |lines| && lines[j] != []
        ensures NonEmpty(lines[..j]) < |Yielded(lines)| && Yielded(lines)[NonEmpty(lines[..j])] == lines[j]
      {
        if j < |init| {
          assert lines[..j] == init[..j];
          assert lines[j] == init[j];
        } else {
          assert lines[..j] == init;
        }
      }
    }
  }

  // ---------------------------------------------------------------------
  // build_concepts

  const ConceptFields: seq<string> := ["concept_id", "vocabulary_id", "concept_name", "concept_class_id", "concept_code"]

  /** `{name: row[name] for name in names}` written out name by name: the
      first missing name raises its KeyError. */
  function Pick(row: Fields, names: seq<string>): (r: Result<Fields>)
    ensures r.Ok? <==> forall i :: 0 <= i < |names| ==> Has(row, names[i])
    ensures r.Ok? ==> |r.value| == |names|
    ensures r.Ok? ==> forall i :: 0 <= i < |names| ==> r.value[i] == (names[i], At(row, names[i]))
  {
    if names == [] then Ok([])
    else
      var n := |names| - 1;
      var rest :- Pick(row, names[..n]);
      var v :- Index(row, names[n]);
      Ok(rest + [(names[n], v)])
  }

  /** A record has the picked names as its keys. */
  lemma PickKeys(row: Fields, names: seq<string>)
    requires Pick(row, names).Ok?
    ensures Keys(Pick(row, names).value) == names
  {
  }

  /** The records of the rows over the given columns, with empty cells as
      None, up to the first row missing a column. */
  function Records(rows: seq<Fields>, names: seq<string>): Result<seq<Fields>>
  {
    if rows == [] then Ok([])
    else
      var rest :- Records(rows[..|rows| - 1], names);
      var c :- Pick(FillCells(rows[|rows| - 1], Null), names);
      Ok(rest + [c])
  }

  /** One record per row, each with exactly the picked columns. */
  lemma {:induction false} RecordsShape(rows: seq<Fields>, names: seq<string>)
    requires Records(rows, names).Ok?
    ensures |Records(rows, names).value| == |rows|
    ensures forall i :: 0 <= i < |rows| ==> Keys(Records(rows, names).value[i]) == names
  {
    if rows != [] {
      RecordsShape(rows[..|rows| - 1], names);
      PickKeys(FillCells(rows[|rows| - 1], Null), names);
    }
  }

  /** The concept records of the rows: the five columns of each. */
  function Concepts(rows: seq<Fields>): Result<seq<Fields>>
  {
    Records(rows, ConceptFields)
  }

  /** What `build_concepts` writes as written: the first pass exhausts the
      reader and the file is rewound under the same reader, so the header
      line is read again as the first data row. */
  function BuildConceptsAsWritten(header: seq<string>, lines: seq<seq<string>>): Result<seq<Fields>>
  {
    Concepts(Rows(header, [header] + lines))
  }

  /** What `build_concepts` evidently means to write: one record per data
      row. */
  function BuildConceptsIntended(header: seq<string>, lines: seq<seq<string>>): Result<seq<Fields>>
  {
    Concepts(Rows(header, lines))
  }

  /** Every record `build_concepts` writes has exactly the five columns. */
  lemma ConceptsShape(header: seq<string>, lines: seq<seq<string>>)
    requires BuildConceptsIntended(header, lines).Ok?
    ensures |BuildConceptsIntended(header, lines).value| == |Rows(header, lines)|
    ensures forall i :: 0 <= i < |Rows(header, lines)| ==> Keys(BuildConceptsIntended(header, lines).value[i]) == ConceptFields
  {
    RecordsShape(Rows(header, lines), ConceptFields);
  }

  /** The loop of `build_concepts` over the rows, for the given columns. */
  method WriteRecords(rows: seq<Fields>, names: seq<string>) returns (r: Result<seq<Fields>>)
    ensures r == Records(rows, names)
  {
    var out: seq<Fields> := [];
    var i := 0;
    while i < |rows|
      invariant 0 <= i <= |rows|
      invariant Records(rows[..i], names) == Ok(out)
    {
      assert rows[..i + 1][..i] == rows[..i];
      var row := FillRow(rows[i], Null);
      var c := Pick(row, names);
      if c.Err? {
        RecordsStop(rows, names, i + 1);
        return Err(c.error);
      }
      out := out + [c.value];
      i := i + 1;
    }
    assert rows[..i] == rows;
    return Ok(out);
  }

  /** `build_concepts`, corrected: the records of the data rows alone. */
  method BuildConcepts(header: seq<string>, lines: seq<seq<string>>) returns (r: Result<seq<Fields>>)
    ensures r == BuildConceptsIntended(header, lines)
  {
    r := WriteRecords(Rows(header, lines), ConceptFields);
  }

  /** A row missing a column ends the run with its error. */
  lemma {:induction false} RecordsStop(rows: seq<Fields>, names: seq<string>, n: nat)
    requires 0 < n <= |rows| && Records(rows[..n - 1], names).Ok?
    requires Pick(FillCells(rows[n - 1], Null), names).Err?
    ensures Records(rows, names) == Err(Pick(FillCells(rows[n - 1], Null), names).error)
    decreases |rows| - n
  {
    if n == |rows| {
      assert rows[..n - 1] == rows[..|rows| - 1];
    } else {
      var init := rows[..|rows| - 1];
      assert init[..n - 1] == rows[..n - 1] && init[n - 1] == rows[n - 1];
      RecordsStop(init, names, n);
    }
  }

  /** With a non-empty header the as-written output is the header's own
      record followed by the intended output. */
  lemma HeaderRowWritten(header: seq<string>, lines: seq<seq<string>>) returns (first: Fields)
    requires header != [] && BuildConceptsAsWritten(header, lines).Ok?
    ensures Pick(FillCells(DictRow(header, header), Null), ConceptFields) == Ok(first)
    ensures BuildConceptsIntended(header, lines).Ok?
    ensures BuildConceptsAsWritten(header, lines).value == [first] + BuildConceptsIntended(header, lines).value
    ensures |BuildConceptsAsWritten(header, lines).value| == |BuildConceptsIntended(header, lines).value| + 1
  {
    RowsCons(header, header, lines);
    RecordsCons(DictRow(header, header), Rows(header, lines), ConceptFields);
    first := Pick(FillCells(DictRow(header, header), Null), ConceptFields).value;
  }

  lemma RowsCons(header: seq<string>, first: seq<string>, lines: seq<seq<string>>)
    requires first != []
    ensures Rows(header, [first] + lines) == [DictRow(header, first)] + Rows(header, lines)
  {
    YieldedCons(first, lines);
  }

  lemma {:induction false} YieldedCons(first: seq<string>, lines: seq<seq<string>>)
    requires first != []
    ensures Yielded([first] + lines) == [first] + Yielded(lines)
  {
    if lines == [] {
      assert [first] + lines == [first];
      assert [first][..0] == [];
    } else {
      var all := [first] + lines;
      assert all[..|all| - 1] == [first] + lines[..|lines| - 1];
      assert all[|all| - 1] == lines[|lines| - 1];
      YieldedCons(first, lines[..|lines| - 1]);
    }
  }

  lemma {:induction false} RecordsCons(row: Fields, rows: seq<Fields>, names: seq<string>)
    requires Records([row] + rows, names).Ok?
    ensures Pick(FillCells(row, Null), names).Ok? && Records(rows, names).Ok?
    ensures Records([row] + rows, names).value == [Pick(FillCells(row, Null), names).value] + Records(rows, names).value
  {
    var all := [row] + rows;
    if rows == [] {
      assert all == [row];
      RecordsSingle(row, names);
    } else {
      var init := rows[..|rows| - 1];
      assert all[..|all| - 1] == [row] + init;
      assert all[|all| - 1] == rows[|rows| - 1];
      RecordsCons(row, init, names);
    }
  }

  lemma RecordsSingle(row: Fields, names: seq<string>)
    ensures Records([row], names) == match Pick(FillCells(row, Null), names)
                                     case Ok(c) => Ok([c])
                                     case Err(e) => Err(e)
  {
    assert [row][..0] == [] && [row][0] == row;
    assert Records([row][..0], names) == Ok([]);
    var c := Pick(FillCells(row, Null), names);
    if c.Ok? {
      assert [] + [c.value] == [c.value];
    }
  }

  /** Each name under itself, as a header line read as a row gives it. */
  function Echo(names: seq<string>): (r: Fields)
    ensures |r| == |names|
  {
    seq(|names|, i requires 0 <= i < |names| => (names[i], Str(names[i])))
  }

  /** Under a header with distinct, non-empty names, the header line read
      as a row holds each of its names under itself. */
  lemma HeaderEcho(header: seq<string>, names: seq<string>)
    requires forall a, b :: 0 <= a < b < |header| ==> header[a] != header[b]
    requires forall i :: 0 <= i < |header| ==> header[i] != ""
    requires forall i :: 0 <= i < |names| ==> names[i] in header
    ensures Pick(FillCells(DictRow(header, header), Null), names) == Ok(Echo(names))
  {
    DictRowKeys(header, header);
    var row := DictRow(header, header);
    var filled := FillCells(row, Null);
    forall i | 0 <= i < |names| ensures Get(filled, names[i]) == Some(Str(names[i])) {
      var j :| 0 <= j < |header| && header[j] == names[i];
      FilledGet(row, Null, header[j]);
    }
    PickEcho(filled, names);
  }

  /** Picking names that each stand under themselves gives them back. */
  lemma {:induction false} PickEcho(row: Fields, names: seq<string>)
    requires forall i :: 0 <= i < |names| ==> Get(row, names[i]) == Some(Str(names[i]))
    ensures Pick(row, names) == Ok(Echo(names))
  {
    if names != [] {
      var n := |names| - 1;
      PickEcho(row, names[..n]);
      assert Echo(names) == Echo(names[..n]) + [(names[n], Str(names[n]))];
    }
  }

  /** Filling a cell that is not empty leaves its lookup as it was. */
  lemma {:induction false} FilledGet(row: Fields, fill: Json, k: string)
    requires Get(row, k).Some? && Get(row, k).value != Str("")
    ensures Get(FillCells(row, fill), k) == Get(row, k)
  {
    var r := FillCells(row, fill);
    if row[0].0 != k {
      assert FillCells(row[1..], fill) == r[1..];
      FilledGet(row[1..], fill, k);
    }
  }

  lemma ConceptFieldsDistinct()
    ensures forall a, b :: 0 <= a < b < |ConceptFields| ==> ConceptFields[a] != ConceptFields[b]
    ensures forall i :: 0 <= i < |ConceptFields| ==> ConceptFields[i] != ""
  {
    var h := ConceptFields;
    assert h[0][8] == 'i' && h[2][8] == 'n' && h[3][8] == 'c' && h[4][8] == 'c' && h[3][9] == 'l' && h[4][9] == 'o';
    assert h[1][0] == 'v' && h[0][0] == 'c';
  }

  /** A table with a header line and no data rows: as written one record,
      the picked names under themselves; intended none. */
  lemma HeaderOnly(header: seq<string>, names: seq<string>)
    requires forall a, b :: 0 <= a < b < |header| ==> header[a] != header[b]
    requires forall i :: 0 <= i < |header| ==> header[i] != ""
    requires forall i :: 0 <= i < |names| ==> names[i] in header
    requires header != []
    ensures Records(Rows(header, []), names) == Ok([])
    ensures Records(Rows(header, [header] + []), names) == Ok([Echo(names)])
  {
    HeaderEcho(header, names);
    RowsCons(header, header, []);
    assert [header] + [] == [header];
    RecordsSingle(DictRow(header, header), names);
  }

  /** The concept table's own header, on a table with no data rows: as
      written one record, the five names under themselves; intended none. */
  lemma HeaderOnlyTable()
    ensures BuildConceptsIntended(ConceptFields, []) == Ok([])
    ensures BuildConceptsAsWritten(ConceptFields, []) == Ok([Echo(ConceptFields)])
  {
    ConceptFieldsDistinct();
    HeaderOnly(ConceptFields, ConceptFields);
  }
}
