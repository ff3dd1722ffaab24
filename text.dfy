// The Python string operations the modelled code relies on: split, join,
// replace, substring tests, case mapping (ASCII letters only), strip, and the
// decimal rendering of integers.

module Text {

  datatype Option<T> = None | Some(value: T)

  /** The whole of a sequence as its longest prefix. */
  lemma TakeAll<T>(s: seq<T>)
    ensures s[..|s|] == s
  {
  }

  /** A non-empty sequence is its front followed by its last element. */
  lemma InitLast<T>(s: seq<T>)
    requires |s| > 0
    ensures s[..|s| - 1] + [s[|s| - 1]] == s
  {
  }

  predicate IsUpperChar(c: char) { 'A' <= c <= 'Z' }
  predicate IsLowerChar(c: char) { 'a' <= c <= 'z' }
  predicate IsDigitChar(c: char) { '0' <= c <= '9' }
  predicate IsCased(c: char) { IsUpperChar(c) || IsLowerChar(c) }

  function UpperChar(c: char): (r: char)
    ensures IsLowerChar(c) ==> IsUpperChar(r)
    ensures !IsLowerChar(c) ==> r == c
  {
    if IsLowerChar(c) then (c as int - 32) as char else c
  }

  function LowerChar(c: char): (r: char)
    ensures IsUpperChar(c) ==> IsLowerChar(r)
    ensures !IsUpperChar(c) ==> r == c
  {
    if IsUpperChar(c) then (c as int + 32) as char else c
  }

  /** `s.upper()` */
  function Upper(s: string): (r: string)
    ensures |r| == |s|
    ensures forall i :: 0 <= i < |s| ==> r[i] == UpperChar(s[i])
  {
    seq(|s|, i requires 0 <= i < |s| => UpperChar(s[i]))
  }

  /** `s.lower()` */
  function Lower(s: string): (r: string)
    ensures |r| == |s|
    ensures forall i :: 0 <= i < |s| ==> r[i] == LowerChar(s[i])
    ensures forall i :: 0 <= i < |r| ==> !IsUpperChar(r[i])
  {
    seq(|s|, i requires 0 <= i < |s| => LowerChar(s[i]))
  }

  /** `s.isupper()`: some cased character, and every cased character upper-case. */
  predicate PyIsUpper(s: string)
  {
    (exists i :: 0 <= i < |s| && IsUpperChar(s[i])) &&
    (forall i :: 0 <= i < |s| ==> !IsLowerChar(s[i]))
  }

  lemma PyIsUpperSingle(c: char)
    ensures PyIsUpper([c]) <==> IsUpperChar(c)
  {
    if IsUpperChar(c) {
      assert [c][0] == c;
    }
  }

  predicate StartsWith(s: string, p: string)
  {
    |p| <= |s| && s[..|p|] == p
  }

  /** A string starts with each of its prefixes. */
  lemma PrefixOf(a: string, b: string)
    ensures StartsWith(a + b, a)
  {
    assert (a + b)[..|a|] == a;
  }

  predicate EndsWith(s: string, p: string)
  {
    |p| <= |s| && s[|s| - |p|..] == p
  }

  /** `sub` occurs in `s` at position `i`. */
  predicate OccursAt(s: string, sub: string, i: nat)
  {
    i + |sub| <= |s| && s[i..i + |sub|] == sub
  }

  lemma OccursAtShift(s: string, sub: string, j: nat)
    requires |s| > 0
    ensures OccursAt(s, sub, j + 1) <==> OccursAt(s[1..], sub, j)
  {
    if j + 1 + |sub| <= |s| {
      assert s[j + 1..j + 1 + |sub|] == s[1..][j..j + |sub|];
    }
  }

  /** `s.find(sub)`: the first position of `sub` in `s`. */
  function IndexOf(s: string, sub: string): (r: Option<nat>)
    ensures r.Some? ==> OccursAt(s, sub, r.value)
    ensures r.Some? ==> forall j: nat :: j < r.value ==> !OccursAt(s, sub, j)
    ensures r.None? ==> forall j: nat :: !OccursAt(s, sub, j)
    decreases |s|
  {
    if |sub| > |s| then None
    else if s[..|sub|] == sub then Some(0)
    else
      match IndexOf(s[1..], sub)
      case None =>
        assert forall j: nat :: !OccursAt(s, sub, j) by {
          forall j: nat ensures !OccursAt(s, sub, j) {
            if j > 0 { OccursAtShift(s, sub, j - 1); }
          }
        }
        None
      case Some(i) =>
        assert forall j: nat :: j < i + 1 ==> !OccursAt(s, sub, j) by {
          forall j: nat | j < i + 1 ensures !OccursAt(s, sub, j) {
            if j > 0 { OccursAtShift(s, sub, j - 1); }
          }
        }
        OccursAtShift(s, sub, i);
        Some(i + 1)
  }

  /** `sub in s` */
  predicate Contains(s: string, sub: string)
  {
    IndexOf(s, sub).Some?
  }

  /** `s.split(sep)` for a non-empty separator. */
  function Split(s: string, sep: string): (r: seq<string>)
    requires |sep| > 0
    ensures |r| >= 1
    decreases |s|
  {
    match IndexOf(s, sep)
    case None => [s]
    case Some(i) => [s[..i]] + Split(s[i + |sep|..], sep)
  }

  /** `sep.join(parts)` */
  function Join(parts: seq<string>, sep: string): string
  {
    if parts == [] then ""
    else if |parts| == 1 then parts[0]
    else parts[0] + sep + Join(parts[1..], sep)
  }

  /** Joining the pieces of a split with the same separator gives the string back. */
  lemma {:induction false} JoinSplit(s: string, sep: string)
    requires |sep| > 0
    ensures Join(Split(s, sep), sep) == s
    decreases |s|
  {
    match IndexOf(s, sep)
    case None =>
    case Some(i) =>
      var rest := s[i + |sep|..];
      var tail := Split(rest, sep);
      JoinSplit(rest, sep);
      assert Split(s, sep) == [s[..i]] + tail;
      var parts := [s[..i]] + tail;
      assert parts[0] == s[..i] && parts[1..] == tail;
      assert Join(parts, sep) == s[..i] + sep + Join(tail, sep);
      assert s[i..i + |sep|] == sep;
      assert s == s[..i] + s[i..i + |sep|] + rest;
  }

  /** Without the separator, a split gives the whole string as its only piece. */
  lemma SplitAbsent(s: string, sep: string)
    requires |sep| > 0 && !Contains(s, sep)
    ensures Split(s, sep) == [s]
  {
  }

  /** The last piece of `s.split(sep)`: `s.split(sep)[-1]`. */
  function LastPiece(s: string, sep: string): string
    requires |sep| > 0
  {
    var parts := Split(s, sep);
    parts[|parts| - 1]
  }

  /** The first piece of `s.split(sep)`: `s.split(sep)[0]`. */
  function FirstPiece(s: string, sep: string): (r: string)
    requires |sep| > 0
    ensures StartsWith(s, r)
    ensures !Contains(s, sep) ==> r == s
  {
    match IndexOf(s, sep)
    case None => s
    case Some(i) => assert s[..i] == s[..|s[..i]|]; s[..i]
  }

  /** `s.replace(pat, rep)` for a non-empty `pat`. */
  function Replace(s: string, pat: string, rep: string): string
    requires |pat| > 0
  {
    Join(Split(s, pat), rep)
  }

  /** `s.replace(a, b)` for single characters. */
  function ReplaceChar(s: string, a: char, b: char): (r: string)
    ensures |r| == |s|
    ensures forall i :: 0 <= i < |s| ==> r[i] == (if s[i] == a then b else s[i])
    ensures a != b ==> forall i :: 0 <= i < |r| ==> r[i] != a
  {
    seq(|s|, i requires 0 <= i < |s| => if s[i] == a then b else s[i])
  }

  /** `s.replace(a, '')` for a single character. */
  function RemoveChar(s: string, a: char): (r: string)
    ensures forall i :: 0 <= i < |r| ==> r[i] != a
    ensures |r| <= |s|
    ensures (forall i :: 0 <= i < |s| ==> s[i] != a) ==> r == s
  {
    if s == [] then []
    else if s[0] == a then RemoveChar(s[1..], a)
    else [s[0]] + RemoveChar(s[1..], a)
  }

  /** The characters Python's `str.strip()` removes (`str.isspace`). */
  predicate IsSpace(c: char)
  {
    c == ' ' || c == '\t' || c == '\n' || c == '\r' || c == '\U{000B}' || c == '\U{000C}'
    || ('\U{001C}' <= c <= '\U{001F}') || c == '\U{0085}' || c == '\U{00A0}' || c == '\U{1680}'
    || ('\U{2000}' <= c <= '\U{200A}') || c == '\U{2028}' || c == '\U{2029}' || c == '\U{202F}'
    || c == '\U{205F}' || c == '\U{3000}'
  }

  function StripLeft(s: string): (r: string)
    ensures r == [] || !IsSpace(r[0])
    ensures |r| <= |s| && r == s[|s| - |r|..]
  {
    if s != [] && IsSpace(s[0]) then StripLeft(s[1..]) else s
  }

  function StripRight(s: string): (r: string)
    ensures r == [] || !IsSpace(r[|r| - 1])
    ensures |r| <= |s| && r == s[..|r|]
  {
    if s != [] && IsSpace(s[|s| - 1]) then StripRight(s[..|s| - 1]) else s
  }

  /** `s.strip()` */
  function Strip(s: string): (r: string)
    ensures r == [] || (!IsSpace(r[0]) && !IsSpace(r[|r| - 1]))
    ensures |r| <= |s|
  {
    var l := StripLeft(s);
    var r := StripRight(l);
    assert r != [] ==> r[0] == l[0];
    r
  }

  function DigitChar(d: nat): char
    requires d < 10
  {
    (48 + d) as char
  }

  /** The decimal digits of `n` (no sign). */
  function NatToString(n: nat): (r: string)
    ensures |r| >= 1
    ensures forall i :: 0 <= i < |r| ==> IsDigitChar(r[i])
    decreases n
  {
    if n < 10 then [DigitChar(n)] else NatToString(n / 10) + [DigitChar(n % 10)]
  }

  /** `str(i)` for a Python int. */
  function IntToString(i: int): (r: string)
    ensures |r| >= 1
    ensures i >= 0 ==> forall k :: 0 <= k < |r| ==> IsDigitChar(r[k])
  {
    if i < 0 then "-" + NatToString(-i) else NatToString(i)
  }

  /** The value of a string of decimal digits. */
  function DigitsValue(s: string): nat
    requires forall k :: 0 <= k < |s| ==> IsDigitChar(s[k])
  {
    if s == [] then 0
    else
      assert IsDigitChar(s[|s| - 1]);
      DigitsValue(s[..|s| - 1]) * 10 + (s[|s| - 1] as int - 48)
  }

  /** Reading back the digits of `n` gives `n`. */
  lemma {:induction false} NatToStringValue(n: nat)
    ensures DigitsValue(NatToString(n)) == n
    decreases n
  {
    if n >= 10 {
      NatToStringValue(n / 10);
      var s := NatToString(n);
      assert s[..|s| - 1] == NatToString(n / 10);
    }
  }

  /** `s.title()`: the first cased letter of every run of cased letters upper, the rest lower. */
  function Title(s: string): (r: string)
    ensures |r| == |s|
  {
    TitleFrom(s, false)
  }

  function TitleFrom(s: string, prevCased: bool): (r: string)
    ensures |r| == |s|
    ensures s != [] && IsCased(s[0]) ==> r[0] == (if prevCased then LowerChar(s[0]) else UpperChar(s[0]))
    ensures s != [] && !IsCased(s[0]) ==> r[0] == s[0]
  {
    if s == [] then []
    else if IsCased(s[0]) then
      [if prevCased then LowerChar(s[0]) else UpperChar(s[0])] + TitleFrom(s[1..], true)
    else [s[0]] + TitleFrom(s[1..], false)
  }

  /** `s.capitalize()`: first character upper, the rest lower. */
  function Capitalize(s: string): (r: string)
    ensures |r| == |s|
    ensures s != [] ==> r[0] == UpperChar(s[0]) && r[1..] == Lower(s[1..])
  {
    if s == [] then [] else [UpperChar(s[0])] + Lower(s[1..])
  }

  /** A one-character separator absent from `a` is first found right after `a`. */
  lemma {:induction false} IndexOfAfter(a: string, c: char, b: string)
    requires c !in a
    ensures IndexOf(a + [c] + b, [c]) == Some(|a|)
    decreases |a|
  {
    var s := a + [c] + b;
    if a == [] {
      assert s[..1] == [c];
    } else {
      assert s[..1] == [a[0]];
      assert s[1..] == a[1..] + [c] + b;
      IndexOfAfter(a[1..], c, b);
    }
  }

  /** A pattern whose first character is absent from `a` is first found right after `a`. */
  lemma {:induction false} IndexOfLead(a: string, pat: string, b: string)
    requires |pat| > 0 && pat[0] !in a
    ensures IndexOf(a + pat + b, pat) == Some(|a|)
    decreases |a|
  {
    var s := a + pat + b;
    if a == [] {
      assert s[..|pat|] == pat;
    } else {
      assert s[..|pat|] != pat by {
        assert s[..|pat|][0] == a[0];
      }
      assert s[1..] == a[1..] + pat + b;
      IndexOfLead(a[1..], pat, b);
    }
  }

  /** Replacing a pattern that occurs only at the very end of `a + pat`. */
  lemma ReplaceLast(a: string, pat: string, rep: string)
    requires |pat| > 0 && pat[0] !in a
    ensures Replace(a + pat, pat, rep) == a + rep
  {
    IndexOfLead(a, pat, "");
    var s := a + pat;
    assert a + pat + "" == s;
    assert s[..|a|] == a;
    assert s[|a| + |pat|..] == "";
    assert Split(s, pat) == [a] + Split("", pat);
    assert Split("", pat) == [""];
    assert Join([a, ""], rep) == a + rep + "";
  }

  /** A string without the separator character splits into itself. */
  lemma {:induction false} NoCharSplit(a: string, c: char)
    requires c !in a
    ensures IndexOf(a, [c]) == None
    ensures Split(a, [c]) == [a]
  {
    if a != [] {
      assert a[..1] != [c] by { assert a[..1][0] == a[0]; }
      NoCharSplit(a[1..], c);
    }
  }

  /** `(a + c + b).split(c)` with `c` in neither part gives the two parts. */
  lemma SplitPair(a: string, c: char, b: string)
    requires c !in a && c !in b
    ensures Split(a + [c] + b, [c]) == [a, b]
  {
    IndexOfAfter(a, c, b);
    var s := a + [c] + b;
    assert s[..|a|] == a;
    assert s[|a| + 1..] == b;
    NoCharSplit(b, c);
  }

  /** The last piece of a split on one character is what follows its last
      occurrence. */
  lemma {:induction false} LastPieceAfter(a: string, c: char, b: string)
    requires c !in b
    ensures LastPiece(a + [c] + b, [c]) == b
    decreases |a|
  {
    var s := a + [c] + b;
    assert OccursAt(s, [c], |a|) by { assert s[|a|..|a| + 1] == [c]; }
    var i := IndexOf(s, [c]).value;
    assert i <= |a|;
    var rest := s[i + 1..];
    LastOfSplit(s, [c], i);
    if i == |a| {
      assert rest == b;
      NoCharSplit(b, c);
    } else {
      assert rest == a[i + 1..] + [c] + b;
      LastPieceAfter(a[i + 1..], c, b);
    }
  }

  /** After a first occurrence of the separator, the last piece comes from
      the rest. */
  lemma LastOfSplit(s: string, sep: string, i: nat)
    requires |sep| > 0 && IndexOf(s, sep) == Some(i)
    ensures i + |sep| <= |s| && LastPiece(s, sep) == LastPiece(s[i + |sep|..], sep)
  {
    var tail := Split(s[i + |sep|..], sep);
    var parts := [s[..i]] + tail;
    assert Split(s, sep) == parts;
    assert parts[|parts| - 1] == tail[|tail| - 1];
  }

  /** No piece of a split on one character holds that character. */
  lemma {:induction false} SplitPiecesFree(s: string, c: char)
    ensures forall k :: 0 <= k < |Split(s, [c])| ==> c !in Split(s, [c])[k]
    decreases |s|
  {
    match IndexOf(s, [c])
    case None =>
      forall j | 0 <= j < |s| ensures s[j] != c {
        assert !OccursAt(s, [c], j);
        assert s[j..j + 1] == [s[j]];
      }
    case Some(i) =>
      forall j | 0 <= j < i ensures s[j] != c {
        assert !OccursAt(s, [c], j);
        assert s[j..j + 1] == [s[j]];
      }
      assert c !in s[..i];
      SplitPiecesFree(s[i + 1..], c);
      var tail := Split(s[i + 1..], [c]);
      assert Split(s, [c]) == [s[..i]] + tail;
  }

  /** A string that splits into two pieces on one character is the first
      piece, the character and the second piece. */
  lemma TwoPieces(s: string, c: char)
    requires |Split(s, [c])| == 2
    ensures var parts := Split(s, [c]);
            s == parts[0] + [c] + parts[1] && c !in parts[0] && c !in parts[1]
  {
    var parts := Split(s, [c]);
    JoinSplit(s, [c]);
    SplitPiecesFree(s, c);
    assert parts[1..] == [parts[1]];
    assert Join(parts, [c]) == parts[0] + [c] + Join([parts[1]], [c]);
  }

  /** A pattern holding a character that `s` lacks does not occur in `s`. */
  lemma AbsentChar(s: string, pat: string, c: char)
    requires c in pat && c !in s
    ensures !Contains(s, pat)
  {
    var k :| 0 <= k < |pat| && pat[k] == c;
    forall j: nat ensures !OccursAt(s, pat, j) {
      if j + |pat| <= |s| {
        assert s[j..j + |pat|][k] == s[j + k] != c;
      }
    }
  }

  /** Replacing a pattern that does not occur changes nothing. */
  lemma ReplaceAbsent(s: string, pat: string, rep: string)
    requires |pat| > 0 && !Contains(s, pat)
    ensures Replace(s, pat, rep) == s
  {
    SplitAbsent(s, pat);
  }

  /** Python's string order: code point by code point, a proper prefix
      first. */
  predicate StrLe(a: string, b: string)
    decreases |a|
  {
    a == [] || (b != [] && (a[0] < b[0] || (a[0] == b[0] && StrLe(a[1..], b[1..]))))
  }

  lemma {:induction false} StrLeTotal(a: string, b: string)
    ensures StrLe(a, b) || StrLe(b, a)
    decreases |a|
  {
    if a != [] && b != [] && a[0] == b[0] {
      StrLeTotal(a[1..], b[1..]);
    }
  }

  lemma {:induction false} StrLeTrans(a: string, b: string, c: string)
    requires StrLe(a, b) && StrLe(b, c)
    ensures StrLe(a, c)
    decreases |a|
  {
    if a != [] && a[0] == b[0] && b[0] == c[0] {
      StrLeTrans(a[1..], b[1..], c[1..]);
    }
  }

  predicate SortedStrs(xs: seq<string>)
  {
    forall i, j :: 0 <= i < j < |xs| ==> StrLe(xs[i], xs[j])
  }

  /** `x` placed before the first element it does not follow. */
  function InsertStr(x: string, xs: seq<string>): (r: seq<string>)
    ensures multiset(r) == multiset(xs) + multiset{x}
    ensures |r| == |xs| + 1
  {
    if xs == [] || StrLe(x, xs[0]) then [x] + xs
    else
      var rest := InsertStr(x, xs[1..]);
      assert xs == [xs[0]] + xs[1..];
      [xs[0]] + rest
  }

  lemma {:induction false} InsertSorted(x: string, xs: seq<string>)
    requires SortedStrs(xs)
    ensures SortedStrs(InsertStr(x, xs))
  {
    if xs == [] || StrLe(x, xs[0]) {
      forall j | 0 < j < |xs| + 1 ensures StrLe(x, ([x] + xs)[j]) {
        assert ([x] + xs)[j] == xs[j - 1];
        if j > 1 {
          StrLeTrans(x, xs[0], xs[j - 1]);
        }
      }
    } else {
      StrLeTotal(x, xs[0]);
      InsertSorted(x, xs[1..]);
      var rest := InsertStr(x, xs[1..]);
      forall j | 0 <= j < |rest| ensures StrLe(xs[0], rest[j]) {
        assert rest[j] in multiset(rest);
        assert rest[j] == x || rest[j] in multiset(xs[1..]);
        if rest[j] != x {
          assert rest[j] in xs[1..];
          var m :| 0 <= m < |xs[1..]| && xs[1..][m] == rest[j];
          assert xs[1 + m] == rest[j];
        }
      }
      var r := [xs[0]] + rest;
      forall i, j | 0 <= i < j < |r| ensures StrLe(r[i], r[j]) {
        if i > 0 {
          assert r[i] == rest[i - 1] && r[j] == rest[j - 1];
        }
      }
    }
  }

  /** `sorted(xs)` on strings. */
  function SortStrs(xs: seq<string>): (r: seq<string>)
    ensures |r| == |xs|
  {
    if xs == [] then [] else InsertStr(xs[0], SortStrs(xs[1..]))
  }

  /** The sorted list is ordered and holds the same strings. */
  lemma {:induction false} SortStrsCorrect(xs: seq<string>)
    ensures SortedStrs(SortStrs(xs))
    ensures multiset(SortStrs(xs)) == multiset(xs)
  {
    if xs != [] {
      SortStrsCorrect(xs[1..]);
      InsertSorted(xs[0], SortStrs(xs[1..]));
      assert xs == [xs[0]] + xs[1..];
    }
  }
  // ---------------------------------------------------------------------
  // Python's int() on a string

  /** A decimal literal as `int()` reads it after stripping: digits, with
      single underscores allowed between two digits. */
  predicate DecimalBody(b: string)
  {
    && |b| > 0
    && (forall i :: 0 <= i < |b| ==> IsDigitChar(b[i]) || b[i] == '_')
    && b[0] != '_' && b[|b| - 1] != '_' && NoDoubleUnderscore(b)
  }

  /** No two underscores in a row. */
  predicate NoDoubleUnderscore(b: string)
  {
    |b| < 2 || (!(b[0] == '_' && b[1] == '_') && NoDoubleUnderscore(b[1..]))
  }

  /** The digits of a literal, the underscores between them dropped. */
  function DigitsOf(b: string): (r: string)
    ensures forall k :: 0 <= k < |r| ==> IsDigitChar(r[k])
    ensures (forall k :: 0 <= k < |b| ==> IsDigitChar(b[k])) ==> r == b
  {
    if b == [] then []
    else if !IsDigitChar(b[|b| - 1]) then DigitsOf(b[..|b| - 1])
    else DigitsOf(b[..|b| - 1]) + [b[|b| - 1]]
  }

  /** `int(s)` for a string: surrounding white space and one sign are
      allowed; None where Python raises ValueError. */
  function ParseInt(s: string): Option<int>
  {
    ParseSigned(Strip(s))
  }

  /** A stripped literal with an optional sign. */
  function ParseSigned(t: string): Option<int>
  {
    if |t| > 0 && (t[0] == '-' || t[0] == '+') then
      if DecimalBody(t[1..]) then
        var n: int := DigitsValue(DigitsOf(t[1..]));
        Some(if t[0] == '-' then -n else n)
      else None
    else if DecimalBody(t) then Some(DigitsValue(DigitsOf(t)))
    else None
  }

  lemma StripPlain(s: string)
    requires s != [] && !IsSpace(s[0]) && !IsSpace(s[|s| - 1])
    ensures Strip(s) == s
  {
  }

  /** A run of digits is a literal, and its own digits. */
  lemma DigitsBody(d: string)
    requires d != [] && forall k :: 0 <= k < |d| ==> IsDigitChar(d[k])
    ensures DecimalBody(d) && DigitsOf(d) == d
  {
    DigitsSingle(d);
  }

  lemma {:induction false} DigitsSingle(d: string)
    requires forall k :: 0 <= k < |d| ==> IsDigitChar(d[k])
    ensures NoDoubleUnderscore(d)
  {
    if |d| >= 2 {
      DigitsSingle(d[1..]);
    }
  }

  /** No white space lies between the space and the next-line character. */
  lemma NotSpaceBetween(c: char)
    requires ' ' < c < '\U{0085}'
    ensures !IsSpace(c)
  {
  }

  lemma DigitNotSpace(c: char)
    requires IsDigitChar(c)
    ensures !IsSpace(c) && c != '-' && c != '+'
  {
  }

  /** `str(i)` has no white space around it. */
  lemma StripIntString(i: int)
    ensures Strip(IntToString(i)) == IntToString(i)
  {
    var s := IntToString(i);
    DigitNotSpace(s[|s| - 1]);
    if i < 0 {
      assert s[0] == '-';
      NotSpaceBetween(s[0]);
    } else {
      DigitNotSpace(s[0]);
    }
    StripPlain(s);
  }

  lemma ParseDigitsPlain(d: string)
    requires d != [] && forall k :: 0 <= k < |d| ==> IsDigitChar(d[k])
    ensures ParseSigned(d) == Some(DigitsValue(d) as int)
  {
    DigitsBody(d);
    DigitNotSpace(d[0]);
  }

  lemma ParseDigitsNegative(t: string, d: string)
    requires d != [] && forall k :: 0 <= k < |d| ==> IsDigitChar(d[k])
    requires |t| > 0 && t[0] == '-' && t[1..] == d
    ensures ParseSigned(t) == Some(-(DigitsValue(d) as int))
  {
    DigitsBody(d);
  }

  /** The sign and digits of `str(i)` read back as `i`. */
  lemma ParseSignedString(i: int)
    ensures ParseSigned(IntToString(i)) == Some(i)
  {
    var n := if i < 0 then -i else i;
    NatToStringValue(n);
    if i < 0 {
      var t := IntToString(i);
      assert t == "-" + NatToString(n);
      assert t[0] == '-' && t[1..] == NatToString(n);
      ParseDigitsNegative(t, NatToString(n));
    } else {
      ParseDigitsPlain(NatToString(n));
    }
  }

  /** `int(str(i)) == i`. */
  lemma ParseIntString(i: int)
    ensures ParseInt(IntToString(i)) == Some(i)
  {
    StripIntString(i);
    ParseSignedString(i);
  }

  /** A run of digits reads as its value. */
  lemma ParseIntDigits(d: string)
    requires d != [] && forall k :: 0 <= k < |d| ==> IsDigitChar(d[k])
    ensures ParseInt(d) == Some(DigitsValue(d) as int)
  {
    DigitNotSpace(d[0]);
    DigitNotSpace(d[|d| - 1]);
    StripPlain(d);
    ParseDigitsPlain(d);
  }

  /** Text that starts with a digit never reads as a negative number. */
  lemma ParseIntNatural(t: string)
    requires t != [] && IsDigitChar(t[0])
    ensures ParseInt(t).Some? ==> ParseInt(t).value >= 0
  {
    DigitNotSpace(t[0]);
    assert StripLeft(t) == t;
    var s := Strip(t);
    assert s == StripRight(t);
    if s != [] {
      assert s[0] == t[0];
    }
  }
}
