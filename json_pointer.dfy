// JSON Pointer evaluation (RFC 6901, sections 3 and 4), the way
// `jsonpointer.resolve_pointer` applies a pointer to a vertex document.

module JsonPointer {

  import opened Text
  import opened Json

  /** Every `~` is followed by `0` or `1` (the library rejects any other `~`
      before it looks at the pointer's first character). */
  predicate ValidEscapes(s: string)
  {
    forall i :: 0 <= i < |s| && s[i] == '~' ==> i + 1 < |s| && (s[i + 1] == '0' || s[i + 1] == '1')
  }

  /** A reference token with `~1` read as `/` and `~0` as `~` (section 4). */
  function Decode(t: string): (r: string)
    decreases |t|
  {
    if t == [] then []
    else if t[0] == '~' && |t| >= 2 && (t[1] == '0' || t[1] == '1') then
      [if t[1] == '0' then '~' else '/'] + Decode(t[2..])
    else [t[0]] + Decode(t[1..])
  }

  /** The reference token for a member name: `~` written `~0`, `/` written `~1`. */
  function Escape(k: string): (r: string)
    ensures forall i :: 0 <= i < |r| ==> r[i] != '/'
    ensures ValidEscapes(r)
    decreases |k|
  {
    if k == [] then []
    else
      var head := if k[0] == '~' then "~0" else if k[0] == '/' then "~1" else [k[0]];
      var rest := Escape(k[1..]);
      EscapesJoin(head, rest);
      head + rest
  }

  /** Escapes stay valid when text with valid escapes and no trailing `~` is
      put in front. */
  lemma EscapesJoin(head: string, rest: string)
    requires ValidEscapes(head) && ValidEscapes(rest)
    requires head != [] && head[|head| - 1] != '~'
    requires forall i :: 0 <= i < |head| ==> head[i] != '/'
    requires forall i :: 0 <= i < |rest| ==> rest[i] != '/'
    ensures ValidEscapes(head + rest)
    ensures forall i :: 0 <= i < |head + rest| ==> (head + rest)[i] != '/'
  {
    var r := head + rest;
    forall i | 0 <= i < |r| && r[i] == '~' ensures i + 1 < |r| && (r[i + 1] == '0' || r[i + 1] == '1') {
      if i < |head| {
        assert i != |head| - 1 && head[i] == '~';
      } else {
        assert rest[i - |head|] == '~';
      }
    }
    forall i | 0 <= i < |r| ensures r[i] != '/' {
      if i >= |head| { assert r[i] == rest[i - |head|]; }
    }
  }

  /** Decoding an escaped member name gives the name back. */
  lemma {:induction false} DecodeEscape(k: string)
    ensures Decode(Escape(k)) == k
    decreases |k|
  {
    if k != [] {
      DecodeEscape(k[1..]);
      var head := if k[0] == '~' then "~0" else if k[0] == '/' then "~1" else [k[0]];
      assert Escape(k) == head + Escape(k[1..]);
      if k[0] == '~' || k[0] == '/' {
        assert (head + Escape(k[1..]))[2..] == Escape(k[1..]);
      } else {
        assert (head + Escape(k[1..]))[1..] == Escape(k[1..]);
      }
    }
  }

  /** The decoded reference tokens of a pointer: none for the empty pointer,
      otherwise the `/`-separated pieces after the leading `/`. */
  function Tokens(p: string): (r: Result<seq<string>>)
    ensures r.Ok? ==> ValidEscapes(p)
    ensures p == [] ==> r == Ok([])
    ensures ValidEscapes(p) && p != [] && p[0] != '/' ==> r == Err(JsonPointerException("Location must start with /"))
  {
    if !ValidEscapes(p) then Err(JsonPointerException("Found invalid escape"))
    else if p == [] then Ok([])
    else if p[0] != '/' then Err(JsonPointerException("Location must start with /"))
    else
      var pieces := Split(p[1..], "/");
      Ok(seq(|pieces|, i requires 0 <= i < |pieces| => Decode(pieces[i])))
  }

  /** `_RE_ARRAY_INDEX.match(part)`: the pattern `0|[1-9][0-9]*$` matched at
      the start of the token. A token that merely begins with `0` passes, and
      `$` also matches before a final line break. */
  predicate IndexMatch(t: string)
  {
    && t != []
    && (|| t[0] == '0'
        || ('1' <= t[0] <= '9' && (AllDigits(t) || (t[|t| - 1] == '\n' && AllDigits(t[..|t| - 1])))))
  }

  predicate AllDigits(t: string)
  {
    forall i :: 0 <= i < |t| ==> IsDigitChar(t[i])
  }

  /** `get_part` and the lookup of `walk` for a sequence of `n` items: the
      position a token names. A matched token is read by `int()`, so `01`
      and `0_1` name position 1, `0 ` and `1\n` positions 0 and 1, and `0x`
      raises ValueError. */
  function SequenceIndex(t: string, n: nat): (r: Result<nat>)
    ensures r.Ok? <==> IndexMatch(t) && ParseInt(t).Some? && ParseInt(t).value < n
    ensures r.Ok? ==> r.value as int == ParseInt(t).value
    ensures IndexMatch(t) && ParseInt(t).None? ==> r.Err? && r.error.ValueError?
    ensures !IndexMatch(t) ==> r.Err? && r.error.JsonPointerException?
  {
    if t == "-" then Err(JsonPointerException("end of list"))
    else if !IndexMatch(t) then Err(JsonPointerException("not a valid sequence index"))
    else
      match ParseInt(t)
      case None => Err(ValueError("invalid literal for int() with base 10"))
      case Some(v) =>
        ParseIntNatural(t);
        if v < n then Ok(v as nat) else Err(JsonPointerException("index is out of bounds"))
  }

  /** A matched token that `int()` reads as `v` names position `v`. */
  lemma ReadIndex(t: string, v: int, n: nat)
    requires IndexMatch(t) && ParseInt(t) == Some(v) && v >= 0
    ensures SequenceIndex(t, n) == if v < n then Ok(v) else Err(JsonPointerException("index is out of bounds"))
  {
  }

  /** A run of digits names the position it spells. */
  lemma DigitsIndex(t: string, n: nat)
    requires t != [] && AllDigits(t)
    ensures SequenceIndex(t, n) == if DigitsValue(t) < n then Ok(DigitsValue(t)) else Err(JsonPointerException("index is out of bounds"))
  {
    assert IndexMatch(t) by {
      assert IsDigitChar(t[0]);
    }
    assert t != "-" by {
      assert IsDigitChar(t[0]);
    }
    ParseIntDigits(t);
  }

  /** `int()` drops an underscore between two digits. */
  lemma ReadUnderscore(t: string)
    requires |t| == 3 && IsDigitChar(t[0]) && t[1] == '_' && IsDigitChar(t[2])
    ensures ParseInt(t) == Some((t[0] as int - 48) * 10 + (t[2] as int - 48))
    ensures t[0] == '0' ==> ParseInt(t) == Some(t[2] as int - 48)
  {
    ZeroTens(t[0], t[2]);
    DigitNotSpace(t[0]);
    DigitNotSpace(t[2]);
    StripPlain(t);
    assert NoDoubleUnderscore(t) by {
      assert t[1..][0] == '_' && t[1..][1] != '_';
      assert |t[1..][1..]| < 2;
    }
    assert DigitsOf(t) == [t[0], t[2]] by {
      assert t[..2][..1] == [t[0]] && [t[0]][..0] == [];
      assert t[..|t| - 1] == t[..2];
    }
    DigitsPair(t[0], t[2]);
  }

  /** `int()` strips trailing white space after a digit. */
  lemma ReadTrailing(d: char, c: char)
    requires IsDigitChar(d) && IsSpace(c)
    ensures ParseInt([d, c]) == Some(d as int - 48)
  {
    DigitNotSpace(d);
    assert StripLeft([d, c]) == [d, c];
    assert StripRight([d, c]) == StripRight([d]) by {
      assert [d, c][..1] == [d];
    }
    assert StripRight([d]) == [d];
    ParseIntDigits([d]);
    assert DigitsValue([d]) == d as int - 48 by {
      assert [d][..0] == [];
    }
  }

  /** `int()` rejects a digit followed by a letter. */
  lemma ReadLetter(d: char, x: char)
    requires IsDigitChar(d) && 'a' <= x <= 'z'
    ensures ParseInt([d, x]) == None
  {
    DigitNotSpace(d);
    NotSpaceBetween(x);
    StripPlain([d, x]);
    assert !DecimalBody([d, x]) by {
      assert !IsDigitChar([d, x][1]) && [d, x][1] != '_';
    }
  }

  /** A digit, an underscore and a digit pass the pattern exactly when the
      first digit is `0`, on that leading `0`, and `int()` then reads them as
      the second digit; after any other digit the underscore fails the
      pattern. */
  lemma UnderscoreIndex(t: string, n: nat)
    requires |t| == 3 && IsDigitChar(t[0]) && t[1] == '_' && IsDigitChar(t[2])
    ensures SequenceIndex(t, n)
            == if t[0] != '0' then Err(JsonPointerException("not a valid sequence index"))
               else if t[2] as int - 48 < n then Ok(t[2] as int - 48)
               else Err(JsonPointerException("index is out of bounds"))
  {
    if t[0] == '0' {
      ZeroUnderscoreIndex(t, n);
    } else {
      UnderscoreUnmatched(t);
      Unmatched(t, n);
    }
  }

  /** `0`, an underscore and a digit select the position that digit names. */
  lemma ZeroUnderscoreIndex(t: string, n: nat)
    requires |t| == 3 && t[0] == '0' && t[1] == '_' && IsDigitChar(t[2])
    ensures SequenceIndex(t, n)
            == if t[2] as int - 48 < n then Ok(t[2] as int - 48) else Err(JsonPointerException("index is out of bounds"))
  {
    LeadingZeroMatched(t);
    ReadUnderscore(t);
    ReadIndex(t, t[2] as int - 48, n);
  }

  /** A leading `0` adds nothing to the value of two digits. */
  lemma ZeroTens(z: char, e: char)
    ensures z == '0' ==> (z as int - 48) * 10 + (e as int - 48) == e as int - 48
  {
  }

  /** A string that starts with `0` passes the pattern. */
  lemma LeadingZeroMatched(t: string)
    requires t != [] && t[0] == '0'
    ensures IndexMatch(t)
  {
  }

  /** After a digit other than `0`, an underscore fails the pattern. */
  lemma UnderscoreUnmatched(t: string)
    requires |t| == 3 && '1' <= t[0] <= '9' && t[1] == '_' && IsDigitChar(t[2])
    ensures !IndexMatch(t)
  {
    assert !IsDigitChar(t[1]);
    assert t[..|t| - 1][1] == '_';
  }

  /** A string other than `-` that fails the pattern is no index. */
  lemma Unmatched(t: string, n: nat)
    requires !IndexMatch(t) && t != "-"
    ensures SequenceIndex(t, n) == Err(JsonPointerException("not a valid sequence index"))
  {
  }

  /** The value of two digits. */
  lemma DigitsPair(d: char, e: char)
    requires IsDigitChar(d) && IsDigitChar(e)
    ensures DigitsValue([d, e]) == (d as int - 48) * 10 + (e as int - 48)
  {
    assert [d][..0] == [];
    assert DigitsValue([d]) == d as int - 48;
    assert [d, e][..1] == [d];
  }

  /** Trailing white space: `0 ` passes the pattern on its `0`, `0\n` and
      `1\n` pass it with `$` before the final line break, and `int()` strips
      the white space. */
  lemma TrailingIndices(n: nat)
    ensures SequenceIndex("0 ", n) == if 0 < n then Ok(0) else Err(JsonPointerException("index is out of bounds"))
    ensures SequenceIndex("0\n", n) == if 0 < n then Ok(0) else Err(JsonPointerException("index is out of bounds"))
    ensures SequenceIndex("1\n", n) == if 1 < n then Ok(1) else Err(JsonPointerException("index is out of bounds"))
  {
    TwoCharMatch('0', ' ');
    ReadTrailing('0', ' ');
    ReadIndex("0 ", 0, n);
    TwoCharMatch('0', '\n');
    ReadTrailing('0', '\n');
    ReadIndex("0\n", 0, n);
    TwoCharMatch('1', '\n');
    ReadTrailing('1', '\n');
    ReadIndex("1\n", 1, n);
  }

  /** A digit from `1` to `9` followed by a space fails the pattern. */
  lemma SpacedIndex(d: char, n: nat)
    requires '1' <= d <= '9'
    ensures SequenceIndex([d, ' '], n) == Err(JsonPointerException("not a valid sequence index"))
  {
    TwoCharMatch(d, ' ');
  }

  /** A digit and a character that is not one pass the pattern exactly
      after `0`, or when the character is a final line break. */
  lemma TwoCharMatch(d: char, c: char)
    requires IsDigitChar(d) && !IsDigitChar(c)
    ensures IndexMatch([d, c]) <==> d == '0' || c == '\n'
  {
    assert [d, c][..1] == [d];
    assert !AllDigits([d, c]) by {
      assert !IsDigitChar([d, c][1]);
    }
  }

  /** A digit followed by a letter: `0x` passes the pattern on its `0` and
      `int()` raises ValueError; after any other digit the pattern fails. */
  lemma LetterIndex(d: char, x: char, n: nat)
    requires IsDigitChar(d) && 'a' <= x <= 'z'
    ensures SequenceIndex([d, x], n)
            == if d == '0' then Err(ValueError("invalid literal for int() with base 10"))
               else Err(JsonPointerException("not a valid sequence index"))
  {
    ReadLetter(d, x);
    assert !AllDigits([d, x]) by {
      assert !IsDigitChar([d, x][1]);
    }
    assert [d, x][|[d, x]| - 1] != '\n';
  }

  /** One evaluation step (`walk`): a mapping is looked up by member name, a
      sequence (a list, or a string, whose items are its characters) by
      position; any other value does not support indexing. */
  function Step(doc: Json, t: string): (r: Result<Json>)
    ensures doc.Obj? ==> (r.Ok? <==> Get(doc.fields, t).Some?)
    ensures doc.Obj? && r.Ok? ==> Get(doc.fields, t) == Some(r.value)
    ensures doc.Obj? && r.Err? ==> r.error.JsonPointerException?
    ensures doc.Arr? ==> (r.Ok? <==> SequenceIndex(t, |doc.items|).Ok?)
    ensures doc.Arr? && r.Ok? ==> r.value == doc.items[SequenceIndex(t, |doc.items|).value]
    ensures doc.Str? ==> (r.Ok? <==> SequenceIndex(t, |doc.s|).Ok?)
    ensures doc.Str? && r.Ok? ==> r.value == Str([doc.s[SequenceIndex(t, |doc.s|).value]])
    ensures !doc.Obj? && !doc.Arr? && !doc.Str? ==> r.Err? && r.error.JsonPointerException?
  {
    match doc
    case Obj(f) =>
      if Get(f, t).Some? then Ok(Get(f, t).value) else Err(JsonPointerException("member not found"))
    case Arr(xs) =>
      var i :- SequenceIndex(t, |xs|);
      Ok(xs[i])
    case Str(s) =>
      var i :- SequenceIndex(t, |s|);
      Ok(Str([s[i]]))
    case _ => Err(JsonPointerException("document does not support indexing"))
  }

  /** A position written in decimal selects that item of a list, and so does
      the same position after a leading zero. */
  lemma IndexSelects(xs: seq<Json>, i: nat)
    requires i < |xs|
    ensures Step(Arr(xs), NatToString(i)) == Ok(xs[i])
    ensures Step(Arr(xs), "0" + NatToString(i)) == Ok(xs[i])
  {
    NatToStringValue(i);
    var t := NatToString(i);
    LeadingZeroValue(t);
    DigitsIndex(t, |xs|);
    DigitsIndex("0" + t, |xs|);
  }

  /** A leading zero does not change the value of a run of digits. */
  lemma {:induction false} LeadingZeroValue(t: string)
    requires AllDigits(t)
    ensures AllDigits("0" + t) && DigitsValue("0" + t) == DigitsValue(t)
    decreases |t|
  {
    assert AllDigits("0" + t) by {
      forall j | 0 <= j < |"0" + t| ensures IsDigitChar(("0" + t)[j]) {
        if j > 0 { assert ("0" + t)[j] == t[j - 1]; }
      }
    }
    if t != [] {
      var u := t[..|t| - 1];
      assert AllDigits(u) by {
        forall j | 0 <= j < |u| ensures IsDigitChar(u[j]) { assert u[j] == t[j]; }
      }
      LeadingZeroValue(u);
      assert ("0" + t)[..|"0" + t| - 1] == "0" + u;
      assert ("0" + t)[|"0" + t| - 1] == t[|t| - 1];
    } else {
      assert "0" + t == "0";
    }
  }

  /** The characters of a string document are reached like list items. */
  lemma StringIndexed(s: string, i: nat)
    requires i < |s|
    ensures Step(Str(s), NatToString(i)) == Ok(Str([s[i]]))
  {
    NatToStringValue(i);
    DigitsIndex(NatToString(i), |s|);
  }

  function Walk(doc: Json, ts: seq<string>): (r: Result<Json>)
    decreases |ts|
  {
    if ts == [] then Ok(doc)
    else
      var next :- Step(doc, ts[0]);
      Walk(next, ts[1..])
  }

  /** `resolve_pointer(doc, pointer)` without a default: a failed step raises. */
  function Resolve(doc: Json, pointer: Json): (r: Result<Json>)
    ensures !pointer.Str? ==> r.Err? && r.error.TypeError?
    ensures pointer == Str("") ==> r == Ok(doc)
  {
    if !pointer.Str? then Err(TypeError("expected string"))
    else
      var ts :- Tokens(pointer.s);
      Walk(doc, ts)
  }

  /** `/` followed by an escaped member name is that one reference token. */
  lemma MemberTokens(k: string)
    ensures Tokens("/" + Escape(k)) == Ok([k])
  {
    var p := "/" + Escape(k);
    assert p[1..] == Escape(k);
    assert ValidEscapes(p) by {
      forall i | 0 <= i < |p| && p[i] == '~' ensures i + 1 < |p| && (p[i + 1] == '0' || p[i + 1] == '1') {
        assert p[i] == Escape(k)[i - 1] && (i < |p| - 1 ==> p[i + 1] == Escape(k)[i]);
      }
    }
    assert '/' !in Escape(k);
    AbsentChar(Escape(k), "/", '/');
    SplitAbsent(Escape(k), "/");
    DecodeEscape(k);
    var pieces := Split(p[1..], "/");
    assert pieces == [Escape(k)];
    var ts := seq(|pieces|, i requires 0 <= i < |pieces| => Decode(pieces[i]));
    assert |ts| == 1 && ts[0] == k;
    assert ts == [k];
  }

  /** A walk of one token is one step. */
  lemma WalkOne(doc: Json, t: string)
    ensures Walk(doc, [t]) == Step(doc, t)
  {
    assert [t][1..] == [];
  }

  /** `/` followed by an escaped member name selects that member of an object,
      and fails when the object has no such member. */
  lemma ResolveMember(f: Fields, k: string)
    ensures Get(f, k).Some? ==> Resolve(Obj(f), Str("/" + Escape(k))) == Ok(Get(f, k).value)
    ensures Get(f, k).None? ==> Resolve(Obj(f), Str("/" + Escape(k))).Err?
  {
    MemberTokens(k);
    WalkOne(Obj(f), k);
  }

  /** A pointer without the leading `/`, such as a bare member name, is
      rejected whatever the document. */
  lemma ResolveRelative(doc: Json, p: string)
    requires p != [] && p[0] != '/' && ValidEscapes(p)
    ensures Resolve(doc, Str(p)) == Err(JsonPointerException("Location must start with /"))
  {
  }
}
