// The href templates of association links: Python's format-string language
// as `string.Formatter().parse` splits a template and `str.format(**kwargs)`
// fills it in, and the regular expression `_extract_id` derives from a
// template (each `{key}` replaced by `(.*)`) to read a value back out of a
// filled-in href.

module HrefTemplate {

  import opened Text
  import opened Json

  /** One replacement field `{name!conversion:spec}`. */
  datatype Field = Field(name: string, conversion: Option<char>, spec: string)

  /** One item of `Formatter().parse`: literal text, then a field if one follows. */
  datatype Chunk = Chunk(literal: string, field: Option<Field>)

  predicate IsBrace(c: char) { c == '{' || c == '}' }

  /** The position of the first brace at or after `i`, or `|s|`. */
  function BraceFrom(s: string, i: nat): (r: nat)
    requires i <= |s|
    ensures i <= r <= |s|
    ensures r < |s| ==> IsBrace(s[r])
    decreases |s| - i
  {
    if i == |s| || IsBrace(s[i]) then i else BraceFrom(s, i + 1)
  }

  /** The position of the first `c` at or after `i`, or `|s|`. */
  function CharFrom(s: string, i: nat, c: char): (r: nat)
    requires i <= |s|
    ensures i <= r <= |s|
    decreases |s| - i
  {
    if i == |s| || s[i] == c then i else CharFrom(s, i + 1, c)
  }

  /** The position of the `}` that closes a field, `depth` braces being open
      before position `i`; None when the string ends first. */
  function CloseFrom(s: string, i: nat, depth: nat): (r: Option<nat>)
    requires i <= |s| && depth >= 1
    ensures r.Some? ==> i <= r.value < |s| && s[r.value] == '}'
    decreases |s| - i
  {
    if i == |s| then None
    else if s[i] == '{' then CloseFrom(s, i + 1, depth + 1)
    else if s[i] == '}' then (if depth == 1 then Some(i) else CloseFrom(s, i + 1, depth - 1))
    else CloseFrom(s, i + 1, depth)
  }

  /** The scan of a field's name from position `k`: the position of the `:`,
      `!` or `}` that ends it, or the end of the field. A `{` is an error,
      except between `[` and `]`. */
  function NameStop(b: string, k: nat): (r: Result<nat>)
    requires k <= |b|
    ensures r.Ok? ==> k <= r.value <= |b|
    ensures r.Ok? && r.value < |b| ==> b[r.value] == ':' || b[r.value] == '!' || b[r.value] == '}'
    decreases |b| - k
  {
    if k == |b| then Ok(k)
    else if b[k] == '{' then Err(ValueError("unexpected '{' in field name"))
    else if b[k] == '[' then NameStop(b, CharFrom(b, k + 1, ']'))
    else if b[k] == ':' || b[k] == '!' || b[k] == '}' then Ok(k)
    else NameStop(b, k + 1)
  }

  /** A field's text between its braces, split into name, conversion and spec. */
  function ParseField(b: string): (r: Result<Field>)
  {
    var k :- NameStop(b, 0);
    if k < |b| && b[k] == '!' then
      if k + 1 == |b| then Err(ValueError("end of string while looking for conversion specifier"))
      else if k + 2 == |b| then Ok(Field(b[..k], Some(b[k + 1]), ""))
      else if b[k + 2] != ':' then Err(ValueError("expected ':' after conversion specifier"))
      else Ok(Field(b[..k], Some(b[k + 1]), b[k + 3..]))
    else if k < |b| && b[k] == ':' then Ok(Field(b[..k], None, b[k + 1..]))
    else Ok(Field(if k < |b| then b[..k + 1] else b, None, ""))
  }

  /** The next item of the parse and the text after it. A doubled brace ends
      a literal chunk holding one copy of it; a lone `}`, or a `{` that is
      never closed, is a ValueError. */
  function NextChunk(s: string): (r: Result<(Chunk, string)>)
    requires s != []
    ensures r.Ok? ==> |r.value.1| < |s|
  {
    var i := BraceFrom(s, 0);
    if i == |s| then Ok((Chunk(s, None), ""))
    else if s[i] == '}' && (i + 1 == |s| || s[i + 1] != '}') then
      Err(ValueError("Single '}' encountered in format string"))
    else if i + 1 == |s| then Err(ValueError("Single '{' encountered in format string"))
    else if s[i + 1] == s[i] then Ok((Chunk(s[..i + 1], None), s[i + 2..]))
    else
      match CloseFrom(s, i + 1, 1)
      case None => Err(ValueError("expected '}' before end of string"))
      case Some(j) =>
        var f :- ParseField(s[i + 1..j]);
        Ok((Chunk(s[..i], Some(f)), s[j + 1..]))
  }

  /** `list(Formatter().parse(s))` */
  function Parse(s: string): (r: Result<seq<Chunk>>)
    decreases |s|
  {
    if s == [] then Ok([])
    else
      var next :- NextChunk(s);
      var rest :- Parse(next.1);
      Ok([next.0] + rest)
  }

  /** The field name of each chunk, None for a chunk without a field. */
  function FieldNames(cs: seq<Chunk>): (r: seq<Option<string>>)
    ensures |r| == |cs|
    ensures forall i :: 0 <= i < |cs| ==> r[i] == if cs[i].field.Some? then Some(cs[i].field.value.name) else None
  {
    seq(|cs|, i requires 0 <= i < |cs| => if cs[i].field.Some? then Some(cs[i].field.value.name) else None)
  }

  /** `[_[1] for _ in Formatter().parse(href)]` */
  function HrefKeys(href: string): (r: Result<seq<Option<string>>>)
  {
    var cs :- Parse(href);
    Ok(FieldNames(cs))
  }

  /** The argument a field refers to: its name up to the first `.` or `[`. */
  function ArgName(name: string): (r: string)
    ensures StartsWith(name, r)
    ensures forall i :: 0 <= i < |r| ==> r[i] != '.' && r[i] != '['
    ensures (forall i :: 0 <= i < |name| ==> name[i] != '.' && name[i] != '[') ==> r == name
  {
    if name == [] || name[0] == '.' || name[0] == '[' then []
    else
      var rest := ArgName(name[1..]);
      assert forall i :: 0 <= i < |rest| ==> ([name[0]] + rest)[i + 1] == rest[i];
      [name[0]] + rest
  }

  /** An empty or all-digit argument refers to a positional argument. */
  predicate Positional(a: string)
  {
    forall i :: 0 <= i < |a| ==> IsDigitChar(a[i])
  }

  /** The `!r`, `!s` and `!a` conversions. */
  function Convert(v: Json, c: Option<char>): (r: Result<string>)
    ensures c.None? ==> r == Ok(Format(v))
  {
    match c
    case None => Ok(Format(v))
    case Some(x) =>
      if x == 's' then Ok(Format(v))
      else if x == 'r' || x == 'a' then Ok(Repr(v))
      else Err(ValueError("Unknown conversion specifier"))
  }

  /** The text one field contributes; `str.format` is called with keyword
      arguments only, so a positional reference is an IndexError. */
  function FieldText(f: Option<Field>, kw: Fields): (r: Result<string>)
  {
    match f
    case None => Ok("")
    case Some(fd) =>
      var a := ArgName(fd.name);
      if Positional(a) then Err(IndexError("Replacement index out of range for positional args tuple"))
      else
        var v :- Index(kw, a);
        Convert(v, fd.conversion)
  }

  /** `s.format(**kw)`, chunk by chunk. */
  function Fill(s: string, kw: Fields): (r: Result<string>)
    decreases |s|
  {
    if s == [] then Ok("")
    else
      var next :- NextChunk(s);
      var t :- FieldText(next.0.field, kw);
      var rest :- Fill(next.1, kw);
      Ok(next.0.literal + t + rest)
  }

  /** The pairs of `zip(keys, values)`; None when one of the keys that the
      zip reaches is None. */
  function ZipKeys(keys: seq<Option<string>>, values: seq<Json>): (r: Option<Fields>)
    decreases |keys|
  {
    if keys == [] || values == [] then Some([])
    else if keys[0].None? then None
    else
      match ZipKeys(keys[1..], values[1..])
      case None => None
      case Some(rest) => Some([(keys[0].value, values[0])] + rest)
  }

  /** `**dict(zip(keys, values))`: keyword names must be strings. */
  function Kwargs(keys: seq<Option<string>>, values: seq<Json>): (r: Result<Fields>)
    ensures r.Ok? ==> UniqueKeys(r.value)
  {
    match ZipKeys(keys, values)
    case None => Err(TypeError("keywords must be strings"))
    case Some(pairs) => Ok(FromPairs(pairs))
  }

  /** The regular expression built from a template: `(.*)` groups and
      literal characters. */
  datatype Piece = Lit(c: char) | Group

  /** Reading a pattern: `(.*)` is a greedy group that stops at a line break;
      every other character is matched as itself. */
  function Compile(p: string): (r: seq<Piece>)
    decreases |p|
  {
    if p == [] then []
    else if |p| >= 4 && p[..4] == "(.*)" then [Group] + Compile(p[4..])
    else [Lit(p[0])] + Compile(p[1..])
  }

  /** What `f"{{{key}}}"` looks for: the key's text in braces, `{None}` for None. */
  function KeyText(k: Option<string>): string
  {
    if k.Some? then k.value else "None"
  }

  /** Every `{key}` of the template replaced by `(.*)`, key by key. */
  function Substitute(href: string, keys: seq<Option<string>>): string
    decreases |keys|
  {
    if keys == [] then href
    else Substitute(Replace(href, "{" + KeyText(keys[0]) + "}", "(.*)"), keys[1..])
  }

  /** The number of leading characters before the first line break. */
  function LineRun(s: string): (r: nat)
    ensures r <= |s|
    ensures forall i :: 0 <= i < r ==> s[i] != '\n'
    ensures r < |s| ==> s[r] == '\n'
  {
    if s == [] || s[0] == '\n' then 0 else 1 + LineRun(s[1..])
  }

  lemma {:induction false} LineRunAll(t: string)
    requires forall i :: 0 <= i < |t| ==> t[i] != '\n'
    ensures LineRun(t) == |t|
    decreases |t|
  {
    if t != [] {
      assert forall i :: 0 <= i < |t[1..]| ==> t[1..][i] == t[i + 1];
      LineRunAll(t[1..]);
    }
  }

  /** `re.match`: the pattern must match a prefix of `s`; a group first takes
      as much as it can and gives characters back until the rest matches.
      The result holds the groups' captures in order. */
  function MatchPieces(p: seq<Piece>, s: string): (r: Option<seq<string>>)
    decreases |p|, 1, 0
  {
    if p == [] then Some([])
    else match p[0]
      case Lit(c) => if s != [] && s[0] == c then MatchPieces(p[1..], s[1..]) else None
      case Group => TryGroup(p[1..], s, LineRun(s))
  }

  function TryGroup(rest: seq<Piece>, s: string, n: nat): (r: Option<seq<string>>)
    requires n <= |s|
    decreases |rest| + 1, 0, n
  {
    match MatchPieces(rest, s[n..])
    case Some(caps) => Some([s[..n]] + caps)
    case None => if n == 0 then None else TryGroup(rest, s, n - 1)
  }

  /** The compiled pattern of a template (`re.compile` of the substituted
      template). */
  function Pattern(href: string): (r: Result<seq<Piece>>)
    ensures r.Ok? <==> HrefKeys(href).Ok?
  {
    var keys :- HrefKeys(href);
    Ok(Compile(Substitute(href, keys)))
  }

  /** `_extract_id` for a string template: the first group's capture and the
      template's first key. */
  function ReadId(href: string, instanceHref: Json): (r: Result<(string, Option<string>)>)
  {
    var pat :- Pattern(href);
    if !instanceHref.Str? then Err(TypeError("expected string or bytes-like object"))
    else
      match MatchPieces(pat, instanceHref.s)
      case None => Err(AssertionError("Unable to find id in instance link"))
      case Some(caps) =>
        if caps == [] then Err(IndexError("no such group"))
        else
          var keys := HrefKeys(href).value;
          if keys == [] then Err(IndexError("list index out of range"))
          else Ok((caps[0], keys[0]))
  }

  // ---------------------------------------------------------------------
  // One-key templates `prefix{key}`, the shape association links use.

  /** Literal text that needs no escaping and holds no `(`. */
  predicate PlainText(s: string)
  {
    forall i :: 0 <= i < |s| ==> !IsBrace(s[i]) && s[i] != '('
  }

  /** A keyword field name: no brace, bracket, `:`, `!` or `.`, and not
      all digits. */
  predicate SimpleName(k: string)
  {
    !Positional(k) &&
    forall i :: 0 <= i < |k| ==> !IsBrace(k[i]) && k[i] != '[' && k[i] != ':' && k[i] != '!' && k[i] != '.'
  }

  function Lits(s: string): (r: seq<Piece>)
    ensures |r| == |s|
  {
    if s == [] then [] else [Lit(s[0])] + Lits(s[1..])
  }

  lemma {:induction false} BraceFromPlain(s: string, i: nat, j: nat)
    requires i <= j < |s| && IsBrace(s[j])
    requires forall m :: i <= m < j ==> !IsBrace(s[m])
    ensures BraceFrom(s, i) == j
    decreases j - i
  {
    if i < j {
      BraceFromPlain(s, i + 1, j);
    }
  }

  lemma {:induction false} CloseFromPlain(s: string, i: nat, j: nat)
    requires i <= j < |s| && s[j] == '}'
    requires forall m :: i <= m < j ==> !IsBrace(s[m])
    ensures CloseFrom(s, i, 1) == Some(j)
    decreases j - i
  {
    if i < j {
      CloseFromPlain(s, i + 1, j);
    }
  }

  lemma {:induction false} NameStopSimple(k: string, m: nat)
    requires m <= |k| && SimpleName(k)
    ensures NameStop(k, m) == Ok(|k|)
    decreases |k| - m
  {
    if m < |k| {
      NameStopSimple(k, m + 1);
    }
  }

  /** `prefix{key}` parses into one chunk: the prefix and the field `key`. */
  lemma ParseSimple(prefix: string, k: string)
    requires PlainText(prefix) && SimpleName(k)
    ensures NextChunk(prefix + "{" + k + "}") == Ok((Chunk(prefix, Some(Field(k, None, ""))), ""))
    ensures Parse(prefix + "{" + k + "}") == Ok([Chunk(prefix, Some(Field(k, None, "")))])
    ensures HrefKeys(prefix + "{" + k + "}") == Ok([Some(k)])
  {
    var s := prefix + "{" + k + "}";
    var i := |prefix|;
    assert s[i] == '{' && s[i + 1..|s| - 1] == k && s[..i] == prefix;
    BraceFromPlain(s, 0, i);
    assert k != [] by { assert !Positional(k); }
    assert s[i + 1] == k[0];
    CloseFromPlain(s, i + 1, |s| - 1);
    NameStopSimple(k, 0);
    assert ParseField(k) == Ok(Field(k, None, ""));
    assert s[|s|..] == "";
    assert NextChunk(s) == Ok((Chunk(prefix, Some(Field(k, None, ""))), ""));
    var cs := [Chunk(prefix, Some(Field(k, None, "")))];
    assert Parse("") == Ok([]);
    assert cs + [] == cs;
    assert Parse(s) == Ok(cs);
    assert FieldNames(cs) == [Some(k)];
  }

  /** Filling `prefix{key}` inserts `str()` of the value stored under the key. */
  lemma FillSimple(prefix: string, k: string, kw: Fields)
    requires PlainText(prefix) && SimpleName(k)
    ensures Has(kw, k) ==> Fill(prefix + "{" + k + "}", kw) == Ok(prefix + Format(At(kw, k)))
    ensures !Has(kw, k) ==> Fill(prefix + "{" + k + "}", kw) == Err(KeyError(k))
  {
    ParseSimple(prefix, k);
    assert ArgName(k) == k;
    assert Fill("", kw) == Ok("");
    if Has(kw, k) {
      assert FieldText(Some(Field(k, None, "")), kw) == Ok(Format(At(kw, k)));
      assert prefix + Format(At(kw, k)) + "" == prefix + Format(At(kw, k));
    }
  }

  lemma {:induction false} CompilePlain(prefix: string)
    requires PlainText(prefix)
    ensures Compile(prefix + "(.*)") == Lits(prefix) + [Group]
    decreases |prefix|
  {
    var p := prefix + "(.*)";
    if prefix == [] {
      assert p[..4] == "(.*)" && p[4..] == [];
    } else {
      assert p[..4] != "(.*)" by { assert p[..4][0] == prefix[0] != '('; }
      assert p[1..] == prefix[1..] + "(.*)";
      CompilePlain(prefix[1..]);
    }
  }

  lemma {:induction false} MatchPlain(prefix: string, h: string)
    ensures StartsWith(h, prefix) ==>
      var t := h[|prefix|..]; MatchPieces(Lits(prefix) + [Group], h) == Some([t[..LineRun(t)]])
    ensures !StartsWith(h, prefix) ==> MatchPieces(Lits(prefix) + [Group], h) == None
    decreases |prefix|
  {
    var p := Lits(prefix) + [Group];
    if prefix == [] {
      assert p == [Group];
      assert h[0..] == h;
      var n := LineRun(h);
      assert MatchPieces([], h[n..]) == Some([]);
      assert [h[..n]] + [] == [h[..n]];
      assert TryGroup([], h, n) == Some([h[..n]]);
    } else {
      assert p[0] == Lit(prefix[0]) && p[1..] == Lits(prefix[1..]) + [Group];
      if h != [] && h[0] == prefix[0] {
        MatchPlain(prefix[1..], h[1..]);
        assert StartsWith(h, prefix) <==> StartsWith(h[1..], prefix[1..]) by {
          if |prefix| <= |h| {
            assert h[..|prefix|] == [h[0]] + h[1..][..|prefix| - 1];
            assert prefix == [prefix[0]] + prefix[1..];
          }
        }
        if StartsWith(h, prefix) {
          assert h[1..][|prefix| - 1..] == h[|prefix|..];
        }
      } else {
        assert !StartsWith(h, prefix) by {
          if |prefix| <= |h| { assert h[..|prefix|][0] == h[0]; }
        }
      }
    }
  }

  lemma SubstituteOne(prefix: string, k: string)
    requires PlainText(prefix)
    ensures Substitute(prefix + "{" + k + "}", [Some(k)]) == prefix + "(.*)"
  {
    var pat := "{" + k + "}";
    assert prefix + "{" + k + "}" == prefix + pat;
    assert pat[0] == '{';
    ReplaceLast(prefix, pat, "(.*)");
  }

  /** The pattern of `prefix{key}` is the prefix followed by one group. */
  lemma PatternSimple(prefix: string, k: string)
    requires PlainText(prefix) && SimpleName(k)
    ensures Pattern(prefix + "{" + k + "}") == Ok(Lits(prefix) + [Group])
  {
    ParseSimple(prefix, k);
    SubstituteOne(prefix, k);
    CompilePlain(prefix);
  }

  /** Reading an href back with `prefix{key}`: the text after the prefix (up
      to a line break) and the key name; an assertion failure when the href
      does not start with the prefix. */
  lemma ReadIdSimple(prefix: string, k: string, h: string)
    requires PlainText(prefix) && SimpleName(k)
    ensures StartsWith(h, prefix) ==>
      var t := h[|prefix|..]; ReadId(prefix + "{" + k + "}", Str(h)) == Ok((t[..LineRun(t)], Some(k)))
    ensures !StartsWith(h, prefix) ==>
      ReadId(prefix + "{" + k + "}", Str(h)) == Err(AssertionError("Unable to find id in instance link"))
  {
    PatternSimple(prefix, k);
    ParseSimple(prefix, k);
    MatchPlain(prefix, h);
  }

  /** Filling `prefix{key}` and reading the result back gives the inserted
      text and the key, when that text holds no line break. */
  lemma FillThenRead(prefix: string, k: string, kw: Fields)
    requires PlainText(prefix) && SimpleName(k) && Has(kw, k)
    requires forall i :: 0 <= i < |Format(At(kw, k))| ==> Format(At(kw, k))[i] != '\n'
    ensures Fill(prefix + "{" + k + "}", kw).Ok?
    ensures ReadId(prefix + "{" + k + "}", Str(Fill(prefix + "{" + k + "}", kw).value)) == Ok((Format(At(kw, k)), Some(k)))
  {
    FillSimple(prefix, k, kw);
    var t := Format(At(kw, k));
    var h := prefix + t;
    PrefixOf(prefix, t);
    ReadIdSimple(prefix, k, h);
    assert h[|prefix|..] == t;
    LineRunAll(t);
    assert t[..|t|] == t;
  }
}
