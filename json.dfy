// JSON-shaped values as the Python code sees them: dictionaries keep their
// insertion order, so an object is an ordered sequence of key/value pairs.

module Json {

  import opened Text

  /** The Python exception a step would raise. */
  datatype PyError =
    | KeyError(key: string)
    | TypeError(what: string)
    | ValueError(what: string)
    | IndexError(what: string)
    | AttributeError(what: string)
    | AssertionError(what: string)
    | AssertionTuple(tag: string, subject: string, items: seq<string>)  // `assert c, (tag, subject, items)`
    | UnboundLocalError(name: string)
    | JsonPointerException(what: string)
    | FileNotFoundError(path: string)

  /** Both kinds of AssertionError. */
  predicate IsAssertion(e: PyError)
  {
    e.AssertionError? || e.AssertionTuple?
  }

  datatype Result<T> = Ok(value: T) | Err(error: PyError)
  {
    predicate IsFailure() { Err? }

    function PropagateFailure<U>(): Result<U>
      requires Err?
    {
      Err(error)
    }

    function Extract(): T
      requires Ok?
    {
      value
    }
  }

  datatype Json =
    | Null
    | Bool(b: bool)
    | Int(i: int)
    | Str(s: string)
    | Arr(items: seq<Json>)
    | Obj(fields: Fields)

  type Fields = seq<(string, Json)>

  /** The keys of a dictionary, in insertion order. */
  function Keys(f: Fields): (ks: seq<string>)
    ensures |ks| == |f|
    ensures forall i {:trigger ks[i]} :: 0 <= i < |f| ==> ks[i] == f[i].0
  {
    if f == [] then [] else [f[0].0] + Keys(f[1..])
  }

  /** `k in d` */
  predicate Has(f: Fields, k: string)
  {
    k in Keys(f)
  }

  /** A well-formed dictionary: no key twice. */
  predicate UniqueKeys(f: Fields)
  {
    f == [] || (!Has(f[1..], f[0].0) && UniqueKeys(f[1..]))
  }

  /** `d.get(k)`: the value stored under `k`, if any. */
  function Get(f: Fields, k: string): (r: Option<Json>)
    ensures r.Some? <==> Has(f, k)
    ensures r.Some? ==> (k, r.value) in f
  {
    if f == [] then None
    else if f[0].0 == k then Some(f[0].1)
    else Get(f[1..], k)
  }

  /** `d[k]`, which raises KeyError when `k` is missing. */
  function Index(f: Fields, k: string): (r: Result<Json>)
    ensures r.Ok? <==> Has(f, k)
    ensures r.Ok? ==> Get(f, k) == Some(r.value)
    ensures r.Err? ==> r.error == KeyError(k)
  {
    match Get(f, k)
    case Some(v) => Ok(v)
    case None => Err(KeyError(k))
  }

  /** Looking a key up in a dict literal, one entry at a time. */
  lemma GetCons(k: string, v: Json, rest: Fields, k2: string)
    ensures Get([(k, v)] + rest, k2) == if k == k2 then Some(v) else Get(rest, k2)
  {
    assert ([(k, v)] + rest)[1..] == rest;
  }

  /** Looking a key up in a dict from its `i`-th entry on. */
  lemma GetStep(p: Fields, i: nat, k: string)
    requires i < |p|
    ensures Get(p[i..], k) == if p[i].0 == k then Some(p[i].1) else Get(p[i + 1..], k)
  {
    assert p[i..][1..] == p[i + 1..];
  }

  /** In a dict with no key twice, the entry at a position is the one its
      key finds. */
  lemma {:induction false} GetAtIndex(f: Fields, j: nat)
    requires UniqueKeys(f) && j < |f|
    ensures Get(f, f[j].0) == Some(f[j].1)
  {
    if j > 0 {
      assert f[1..][j - 1] == f[j];
      assert Keys(f[1..])[j - 1] == f[j].0;
      GetAtIndex(f[1..], j - 1);
    }
  }

  /** `d.get(k, default)` */
  function GetOr(f: Fields, k: string, default: Json): (r: Json)
    ensures Has(f, k) ==> Get(f, k) == Some(r)
    ensures !Has(f, k) ==> r == default
  {
    match Get(f, k)
    case Some(v) => v
    case None => default
  }

  /** `d[k] = v`: an existing key keeps its position, a new key goes last. */
  function Put(f: Fields, k: string, v: Json): (r: Fields)
    ensures Get(r, k) == Some(v)
    ensures forall k' :: k' != k ==> Get(r, k') == Get(f, k')
    ensures Has(f, k) ==> Keys(r) == Keys(f)
    ensures !Has(f, k) ==> Keys(r) == Keys(f) + [k]
    ensures UniqueKeys(f) ==> UniqueKeys(r)
  {
    if Has(f, k) then
      var r := SetAt(f, k, v);
      SameKeysUnique(f, r);
      r
    else
      AppendNew(f, k, v);
      f + [(k, v)]
  }

  /** After a store, a key is present exactly when it is the stored one or
      was present before. */
  lemma PutHas(f: Fields, k: string, v: Json, k': string)
    ensures Has(Put(f, k, v), k') <==> k' == k || Has(f, k')
  {
    if k' != k {
      assert Get(Put(f, k, v), k') == Get(f, k');
    }
  }

  /** The pair holding `k` gets the value `v`, in place. */
  function SetAt(f: Fields, k: string, v: Json): (r: Fields)
    requires Has(f, k)
    ensures Get(r, k) == Some(v)
    ensures forall k' :: k' != k ==> Get(r, k') == Get(f, k')
    ensures Keys(r) == Keys(f)
  {
    if f[0].0 == k then
      var r := [(k, v)] + f[1..];
      assert r[1..] == f[1..];
      r
    else
      var r := [f[0]] + SetAt(f[1..], k, v);
      assert r[1..] == SetAt(f[1..], k, v);
      r
  }

  /** Storing twice under one key keeps only the second value, in the
      position the key already had. */
  lemma PutTwice(f: Fields, k: string, x: Json, y: Json)
    ensures Put(Put(f, k, x), k, y) == Put(f, k, y)
  {
    if Has(f, k) {
      SetAtTwice(f, k, x, y);
    } else {
      SetAtLast(f, k, x, y);
    }
  }

  lemma {:induction false} SetAtTwice(f: Fields, k: string, x: Json, y: Json)
    requires Has(f, k)
    ensures SetAt(SetAt(f, k, x), k, y) == SetAt(f, k, y)
  {
    if f[0].0 != k {
      var g := SetAt(f[1..], k, x);
      assert SetAt(f, k, x) == [f[0]] + g;
      assert ([f[0]] + g)[1..] == g;
      SetAtTwice(f[1..], k, x, y);
    }
  }

  lemma {:induction false} SetAtLast(f: Fields, k: string, x: Json, y: Json)
    requires !Has(f, k)
    ensures Has(f + [(k, x)], k) && SetAt(f + [(k, x)], k, y) == f + [(k, y)]
  {
    HasLast(f, k, x);
    if f == [] {
      assert [] + [(k, x)] == [(k, x)];
      assert [] + [(k, y)] == [(k, y)];
    } else {
      var t := f[1..];
      assert f[0].0 != k && !Has(t, k) by {
        assert Keys(f) == [f[0].0] + Keys(t);
      }
      SetAtLast(t, k, x, y);
      SetAtLastStep(f[0], t, k, x, y);
      assert f == [f[0]] + t;
    }
  }

  /** The step of `SetAtLast`: a first pair with another key stays in front. */
  lemma SetAtLastStep(p: (string, Json), t: Fields, k: string, x: Json, y: Json)
    requires p.0 != k && Has(t + [(k, x)], k) && SetAt(t + [(k, x)], k, y) == t + [(k, y)]
    ensures Has([p] + t + [(k, x)], k) && SetAt([p] + t + [(k, x)], k, y) == [p] + t + [(k, y)]
  {
    assert [p] + t + [(k, x)] == [p] + (t + [(k, x)]);
    assert [p] + t + [(k, y)] == [p] + (t + [(k, y)]);
    SetAtCons(p, t + [(k, x)], k, y);
  }

  lemma HasLast(f: Fields, k: string, x: Json)
    ensures Has(f + [(k, x)], k)
  {
    AppendKeys(f, k, x);
    assert Keys(f + [(k, x)])[|f|] == k;
  }

  lemma SetAtCons(p: (string, Json), t: Fields, k: string, y: Json)
    requires p.0 != k && Has(t, k)
    ensures Has([p] + t, k) && SetAt([p] + t, k, y) == [p] + SetAt(t, k, y)
  {
    assert ([p] + t)[1..] == t;
    assert Keys([p] + t) == [p.0] + Keys(t);
  }

  /** A new key appended at the end. */
  lemma AppendNew(f: Fields, k: string, v: Json)
    requires !Has(f, k)
    ensures Get(f + [(k, v)], k) == Some(v)
    ensures forall k' :: k' != k ==> Get(f + [(k, v)], k') == Get(f, k')
    ensures Keys(f + [(k, v)]) == Keys(f) + [k]
    ensures UniqueKeys(f) ==> UniqueKeys(f + [(k, v)])
  {
    AppendKeys(f, k, v);
    AppendGet(f, k, v);
    forall k' | k' != k
      ensures Get(f + [(k, v)], k') == Get(f, k')
    {
      AppendGetOther(f, k, v, k');
    }
    if UniqueKeys(f) {
      AppendUnique(f, k, v);
    }
  }

  lemma AppendKeys(f: Fields, k: string, v: Json)
    ensures Keys(f + [(k, v)]) == Keys(f) + [k]
  {
  }

  lemma {:induction false} AppendGet(f: Fields, k: string, v: Json)
    requires !Has(f, k)
    ensures Get(f + [(k, v)], k) == Some(v)
  {
    if f == [] {
      assert [] + [(k, v)] == [(k, v)];
    } else {
      assert (f + [(k, v)])[1..] == f[1..] + [(k, v)];
      AppendGet(f[1..], k, v);
    }
  }

  lemma {:induction false} AppendGetOther(f: Fields, k: string, v: Json, k': string)
    requires k' != k
    ensures Get(f + [(k, v)], k') == Get(f, k')
  {
    if f == [] {
      assert [] + [(k, v)] == [(k, v)];
    } else {
      assert (f + [(k, v)])[1..] == f[1..] + [(k, v)];
      AppendGetOther(f[1..], k, v, k');
    }
  }

  lemma {:induction false} AppendUnique(f: Fields, k: string, v: Json)
    requires !Has(f, k) && UniqueKeys(f)
    ensures UniqueKeys(f + [(k, v)])
  {
    if f == [] {
      assert [] + [(k, v)] == [(k, v)];
    } else {
      assert (f + [(k, v)])[1..] == f[1..] + [(k, v)];
      AppendKeys(f[1..], k, v);
      AppendUnique(f[1..], k, v);
    }
  }

  /** `del d[k]` on a key known to be present (every copy of it goes). */
  function Del(f: Fields, k: string): (r: Fields)
    ensures !Has(r, k)
    ensures forall k' :: k' != k ==> Get(r, k') == Get(f, k')
    ensures Keys(r) == RemoveKey(Keys(f), k)
    ensures UniqueKeys(f) ==> UniqueKeys(r)
    ensures |r| <= |f|
  {
    if f == [] then []
    else if f[0].0 == k then Del(f[1..], k)
    else [f[0]] + Del(f[1..], k)
  }

  /** `del d[k]`, which raises KeyError when `k` is missing. */
  function DelKey(f: Fields, k: string): (r: Result<Fields>)
    ensures r.Ok? <==> Has(f, k)
    ensures r.Ok? ==> r.value == Del(f, k)
  {
    if Has(f, k) then Ok(Del(f, k)) else Err(KeyError(k))
  }

  /** The keys of `ks` other than `k`, in order. */
  function RemoveKey(ks: seq<string>, k: string): (r: seq<string>)
    ensures k !in r
    ensures forall x :: x in r <==> x in ks && x != k
  {
    if ks == [] then []
    else if ks[0] == k then RemoveKey(ks[1..], k)
    else [ks[0]] + RemoveKey(ks[1..], k)
  }

  /** `d.update(e)`: every pair of `e`, in order, as `d[k] = v`. */
  function Update(f: Fields, e: Fields): (r: Fields)
    ensures forall k :: Has(e, k) ==> Has(r, k)
    ensures forall k :: !Has(e, k) ==> Get(r, k) == Get(f, k)
    ensures UniqueKeys(e) ==> forall k :: Has(e, k) ==> Get(r, k) == Get(e, k)
    ensures UniqueKeys(f) ==> UniqueKeys(r)
    decreases |e|
  {
    if e == [] then f
    else
      assert Keys(e) == [e[0].0] + Keys(e[1..]);
      Update(Put(f, e[0].0, e[0].1), e[1..])
  }

  /** A dictionary literal or comprehension: later duplicates overwrite earlier ones. */
  function FromPairs(e: Fields): (r: Fields)
    ensures UniqueKeys(r)
    ensures forall k :: Has(r, k) <==> Has(e, k)
  {
    Update([], e)
  }

  /** `key in d` for any value as the key: an unhashable key raises
      TypeError, and only a string can be one of the model's keys. */
  function HasKey(f: Fields, key: Json): (r: Result<bool>)
    ensures r.Err? <==> !Hashable(key)
    ensures key.Str? ==> r == Ok(Has(f, key.s))
    ensures Hashable(key) && !key.Str? ==> r == Ok(false)
  {
    if !Hashable(key) then Err(TypeError("unhashable type"))
    else Ok(key.Str? && Has(f, key.s))
  }

  /** `d[key]` for any value as the key. */
  function Lookup(f: Fields, key: Json): (r: Result<Json>)
    ensures r.Ok? <==> key.Str? && Has(f, key.s)
    ensures r.Ok? ==> Get(f, key.s) == Some(r.value)
    ensures !Hashable(key) ==> r.Err? && r.error.TypeError?
  {
    if !Hashable(key) then Err(TypeError("unhashable type"))
    else if !key.Str? then Err(KeyError(Format(key)))
    else Index(f, key.s)
  }

  /** `d.get(key, default)` for any value as the key. */
  function GetKey(f: Fields, key: Json, default: Json): (r: Result<Json>)
    ensures r.Err? <==> !Hashable(key)
    ensures key.Str? ==> r == Ok(GetOr(f, key.s, default))
    ensures Hashable(key) && !key.Str? ==> r == Ok(default)
  {
    if !Hashable(key) then Err(TypeError("unhashable type"))
    else if key.Str? then Ok(GetOr(f, key.s, default))
    else Ok(default)
  }

  /** `c[key]` where `c` must be a dict: subscripting a list or a string
      with an integer is not part of this model and raises TypeError. */
  function Subscript(c: Json, key: Json): (r: Result<Json>)
    ensures r.Ok? <==> c.Obj? && key.Str? && Has(c.fields, key.s)
    ensures r.Ok? ==> Get(c.fields, key.s) == Some(r.value)
  {
    if c.Obj? then Lookup(c.fields, key) else Err(TypeError("indices must be integers"))
  }

  /** `len(c)` */
  function Len(c: Json): (r: Result<nat>)
    ensures c.Arr? ==> r == Ok(|c.items|)
    ensures c.Obj? ==> r == Ok(|c.fields|)
    ensures c.Str? ==> r == Ok(|c.s|)
    ensures r.Err? <==> !(c.Arr? || c.Obj? || c.Str?)
  {
    match c
    case Arr(xs) => Ok(|xs|)
    case Obj(f) => Ok(|f|)
    case Str(s) => Ok(|s|)
    case _ => Err(TypeError("object has no len()"))
  }

  /** `a + s` for a string `s`: only a string can be extended by one. */
  function Concat(a: Json, s: string): (r: Result<string>)
    ensures r.Ok? <==> a.Str?
    ensures r.Ok? ==> r.value == a.s + s
  {
    if a.Str? then Ok(a.s + s) else Err(TypeError("can only concatenate str"))
  }

  /** `a += s` for a string `s`: a string grows by `s`, a list by the
      characters of `s`. */
  function PlusAssign(a: Json, s: string): (r: Result<Json>)
    ensures a.Str? ==> r == Ok(Str(a.s + s))
    ensures a.Arr? ==> r == Ok(Arr(a.items + Chars(s)))
    ensures r.Err? <==> !(a.Str? || a.Arr?)
  {
    match a
    case Str(t) => Ok(Str(t + s))
    case Arr(xs) => Ok(Arr(xs + Chars(s)))
    case _ => Err(TypeError("unsupported operand type for +="))
  }

  /** `sep.join(c)`: every item visited must be a string. */
  function JoinJ(sep: string, c: Json): (r: Result<string>)
    ensures c.Arr? && (forall i :: 0 <= i < |c.items| ==> c.items[i].Str?) ==>
              r == Ok(Join(seq(|c.items|, i requires 0 <= i < |c.items| => c.items[i].s), sep))
    ensures c.Arr? && (exists i :: 0 <= i < |c.items| && !c.items[i].Str?) ==> r.Err?
  {
    var xs :- Iterate(c);
    if forall i :: 0 <= i < |xs| ==> xs[i].Str? then
      Ok(Join(seq(|xs|, i requires 0 <= i < |xs| => xs[i].s), sep))
    else Err(TypeError("sequence item: expected str instance"))
  }

  /** A stored value written again leaves a dictionary as it was. */
  lemma {:induction false} PutSame(f: Fields, k: string, v: Json)
    requires UniqueKeys(f) && Get(f, k) == Some(v)
    ensures Put(f, k, v) == f
  {
    if f != [] && f[0].0 != k {
      PutSame(f[1..], k, v);
    }
  }

  /** Python truthiness. */
  predicate Truthy(j: Json)
  {
    match j
    case Null => false
    case Bool(b) => b
    case Int(i) => i != 0
    case Str(s) => s != ""
    case Arr(xs) => xs != []
    case Obj(f) => f != []
  }

  /** `isinstance(j, dict)` together with `k in j`. */
  predicate ObjHas(j: Json, k: string)
  {
    j.Obj? && Has(j.fields, k)
  }

  /** `j.get(k)` on a value that must be a dict (else AttributeError). */
  function ObjGet(j: Json, k: string): (r: Result<Option<Json>>)
    ensures r.Ok? <==> j.Obj?
    ensures j.Obj? ==> r.value == Get(j.fields, k)
  {
    if j.Obj? then Ok(Get(j.fields, k)) else Err(AttributeError("get"))
  }

  /** `j[k]` on a value that must be a dict. */
  function ObjIndex(j: Json, k: string): (r: Result<Json>)
    ensures r.Ok? <==> ObjHas(j, k)
    ensures r.Ok? ==> Get(j.fields, k) == Some(r.value)
  {
    if j.Obj? then Index(j.fields, k) else Err(TypeError("subscript"))
  }

  /** `j[k]` where the value must be a string. */
  function StrAt(f: Fields, k: string): (r: Result<string>)
    ensures r.Ok? <==> Get(f, k).Some? && Get(f, k).value.Str?
    ensures r.Ok? ==> Get(f, k) == Some(Str(r.value))
  {
    match Get(f, k)
    case None => Err(KeyError(k))
    case Some(Str(s)) => Ok(s)
    case Some(_) => Err(TypeError(k))
  }

  /** `j[k]` where the value must be a dict. */
  function ObjAt(f: Fields, k: string): (r: Result<Fields>)
    ensures r.Ok? <==> Get(f, k).Some? && Get(f, k).value.Obj?
    ensures r.Ok? ==> Get(f, k) == Some(Obj(r.value))
  {
    match Get(f, k)
    case None => Err(KeyError(k))
    case Some(Obj(g)) => Ok(g)
    case Some(_) => Err(TypeError(k))
  }

  /** `j[k]` where the value must be a list. */
  function ArrAt(f: Fields, k: string): (r: Result<seq<Json>>)
    ensures r.Ok? <==> Get(f, k).Some? && Get(f, k).value.Arr?
    ensures r.Ok? ==> Get(f, k) == Some(Arr(r.value))
  {
    match Get(f, k)
    case None => Err(KeyError(k))
    case Some(Arr(xs)) => Ok(xs)
    case Some(_) => Err(TypeError(k))
  }

  /** The value stored under a key known to be present. */
  function At(f: Fields, k: string): Json
    requires Has(f, k)
  {
    Get(f, k).value
  }

  /** Uniqueness of keys depends on the keys alone. */
  lemma {:induction false} SameKeysUnique(a: Fields, b: Fields)
    requires Keys(a) == Keys(b)
    ensures UniqueKeys(a) == UniqueKeys(b)
  {
    if a != [] {
      assert Keys(a[1..]) == Keys(a)[1..] == Keys(b)[1..] == Keys(b[1..]);
      SameKeysUnique(a[1..], b[1..]);
    }
  }

  lemma UniqueKeysGet(f: Fields, i: nat)
    requires UniqueKeys(f) && i < |f|
    ensures Get(f, f[i].0) == Some(f[i].1)
  {
    if i > 0 {
      UniqueKeysGet(f[1..], i - 1);
      assert f[1..][i - 1] == f[i];
      assert Keys(f[1..])[i - 1] == f[i].0;
    }
  }

  /** In a dictionary a pair's key finds that pair's value. */
  lemma UniqueKeysIn(f: Fields, k: string, v: Json)
    requires UniqueKeys(f) && (k, v) in f
    ensures Get(f, k) == Some(v)
  {
    var i :| 0 <= i < |f| && f[i] == (k, v);
    UniqueKeysGet(f, i);
  }

  lemma InHas(f: Fields, kv: (string, Json))
    requires kv in f
    ensures Has(f, kv.0)
  {
    var i :| 0 <= i < |f| && f[i] == kv;
    assert Keys(f)[i] == kv.0;
  }

  /** `k in d` gives the position of the pair holding `k`. */
  lemma HasAt(f: Fields, k: string) returns (i: nat)
    requires Has(f, k)
    ensures i < |f| && f[i].0 == k
  {
    i :| 0 <= i < |f| && Keys(f)[i] == k;
  }

  /** Python's `repr` of a string: single quotes unless the text holds a single
      quote and no double quote; backslashes, the quote and line breaks escaped.
      Other non-printable characters are not escaped in this model. */
  function ReprStr(s: string): string
  {
    var q := if '\'' in s && '"' !in s then '"' else '\'';
    [q] + EscapeFor(s, q) + [q]
  }

  function EscapeFor(s: string, q: char): string
  {
    if s == [] then ""
    else
      var c := s[0];
      var e := if c == '\\' then "\\\\"
               else if c == q then ['\\', q]
               else if c == '\n' then "\\n"
               else if c == '\r' then "\\r"
               else if c == '\t' then "\\t"
               else [c];
      e + EscapeFor(s[1..], q)
  }

  /** Python's `repr` of a value. */
  function Repr(j: Json): string
  {
    match j
    case Null => "None"
    case Bool(b) => if b then "True" else "False"
    case Int(i) => IntToString(i)
    case Str(s) => ReprStr(s)
    case Arr(xs) => "[" + ReprItems(xs) + "]"
    case Obj(f) => "{" + ReprPairs(f) + "}"
  }

  function ReprItems(xs: seq<Json>): string
    decreases xs
  {
    if xs == [] then ""
    else if |xs| == 1 then Repr(xs[0])
    else Repr(xs[0]) + ", " + ReprItems(xs[1..])
  }

  function ReprPairs(f: Fields): string
    decreases f
  {
    if f == [] then ""
    else
      var p := f[0];
      assert p in f;
      assert p.1 < p;
      var item := ReprStr(p.0) + ": " + Repr(p.1);
      if |f| == 1 then item else item + ", " + ReprPairs(f[1..])
  }

  /** Python's `str(j)`, which is also what an f-string inserts: a string is
      inserted as it is, everything else as its `repr`. */
  function Format(j: Json): (r: string)
    ensures j.Str? ==> r == j.s
    ensures j.Int? ==> r == IntToString(j.i)
    ensures j == Null ==> r == "None"
  {
    if j.Str? then j.s else Repr(j)
  }

  /** `needle in c` for a string needle: a substring test on a string, a
      membership test on a list, a key test on a dict; TypeError otherwise. */
  function InJ(needle: string, c: Json): (r: Result<bool>)
    ensures c.Obj? ==> r == Ok(Has(c.fields, needle))
    ensures c.Str? ==> r == Ok(Contains(c.s, needle))
    ensures c.Arr? ==> r == Ok(Str(needle) in c.items)
    ensures r.Err? <==> !(c.Obj? || c.Str? || c.Arr?)
  {
    match c
    case Str(s) => Ok(Contains(s, needle))
    case Arr(xs) => Ok(Str(needle) in xs)
    case Obj(f) => Ok(Has(f, needle))
    case _ => Err(TypeError("argument is not iterable"))
  }

  /** The characters of a string, each as a one-character string. */
  function Chars(s: string): (r: seq<Json>)
    ensures |r| == |s|
    ensures forall i :: 0 <= i < |s| ==> r[i] == Str([s[i]])
  {
    seq(|s|, i requires 0 <= i < |s| => Str([s[i]]))
  }

  /** The keys of a dict, each as a string value. */
  function KeyValues(f: Fields): (r: seq<Json>)
    ensures |r| == |f|
    ensures forall i :: 0 <= i < |f| ==> r[i] == Str(f[i].0)
  {
    seq(|f|, i requires 0 <= i < |f| => Str(f[i].0))
  }

  /** The values of a dict, in order. */
  function Values(f: Fields): (r: seq<Json>)
    ensures |r| == |f| && forall i :: 0 <= i < |f| ==> r[i] == f[i].1
  {
    seq(|f|, i requires 0 <= i < |f| => f[i].1)
  }

  /** What `for x in c` visits: list items, characters, or dict keys. */
  function Iterate(c: Json): (r: Result<seq<Json>>)
    ensures c.Arr? ==> r == Ok(c.items)
    ensures r.Err? <==> !(c.Obj? || c.Str? || c.Arr?)
  {
    match c
    case Arr(xs) => Ok(xs)
    case Str(s) => Ok(Chars(s))
    case Obj(f) => Ok(KeyValues(f))
    case _ => Err(TypeError("object is not iterable"))
  }

  /** `v[0]`: the first element of a list, the first character of a string. */
  function First(v: Json): (r: Result<Json>)
    ensures v.Arr? && v.items != [] ==> r == Ok(v.items[0])
    ensures r.Ok? ==> v.Arr? || v.Str?
  {
    match v
    case Arr(xs) => if xs == [] then Err(IndexError("list index out of range")) else Ok(xs[0])
    case Str(s) => if s == [] then Err(IndexError("string index out of range")) else Ok(Str([s[0]]))
    case Obj(_) => Err(KeyError("0"))
    case _ => Err(TypeError("object is not subscriptable"))
  }

  /** Lists and dicts cannot be set members or dict keys. */
  predicate Hashable(j: Json)
  {
    !j.Arr? && !j.Obj?
  }

  /** `{k: v for k, v in f.items() if keep(v)}` */
  function FilterFields(f: Fields, keep: Json -> bool): (r: Fields)
    ensures forall kv :: kv in r <==> kv in f && keep(kv.1)
    ensures forall k :: Has(r, k) ==> Has(f, k)
    ensures UniqueKeys(f) ==> UniqueKeys(r)
    ensures |r| <= |f|
  {
    if f == [] then []
    else
      var rest := FilterFields(f[1..], keep);
      FilterCons(f, rest);
      if keep(f[0].1) then [f[0]] + rest else rest
  }

  /** The same comprehension with a test that may raise: it raises if any test does. */
  function FilterFieldsR(f: Fields, keep: Json -> Result<bool>): (r: Result<Fields>)
    ensures r.Ok? <==> forall kv :: kv in f ==> keep(kv.1).Ok?
    ensures r.Ok? ==> forall kv :: kv in r.value <==> kv in f && keep(kv.1) == Ok(true)
    ensures r.Ok? ==> forall k :: Has(r.value, k) ==> Has(f, k)
    ensures r.Ok? && UniqueKeys(f) ==> UniqueKeys(r.value)
  {
    if f == [] then Ok([])
    else
      var b :- keep(f[0].1);
      var rest :- FilterFieldsR(f[1..], keep);
      FilterCons(f, rest);
      Ok(if b then [f[0]] + rest else rest)
  }

  /** Filtering the tail of a dict, with or without its first entry, keeps
      only its keys and keeps them unique. */
  lemma FilterCons(f: Fields, rest: Fields)
    requires f != []
    requires forall k :: Has(rest, k) ==> Has(f[1..], k)
    requires UniqueKeys(f[1..]) ==> UniqueKeys(rest)
    ensures forall k :: Has(rest, k) ==> Has(f, k)
    ensures forall k :: Has([f[0]] + rest, k) ==> Has(f, k)
    ensures UniqueKeys(f) ==> UniqueKeys(rest) && UniqueKeys([f[0]] + rest)
  {
    assert Keys(f) == [f[0].0] + Keys(f[1..]);
    assert ([f[0]] + rest)[1..] == rest;
    assert Keys([f[0]] + rest) == [f[0].0] + Keys(rest);
  }

  /** Each value of `f` replaced by `g(key, value)`, in order, raising as soon
      as a call raises. */
  function MapValuesSpec(f: Fields, g: (string, Json) -> Result<Json>): (r: Result<Fields>)
    ensures r.Ok? <==> forall i :: 0 <= i < |f| ==> g(f[i].0, f[i].1).Ok?
    ensures r.Ok? ==> |r.value| == |f|
    ensures r.Ok? ==> forall i :: 0 <= i < |f| ==> r.value[i] == (f[i].0, g(f[i].0, f[i].1).value)
    decreases |f|
  {
    if f == [] then Ok([])
    else
      var init := f[..|f| - 1];
      var last := f[|f| - 1];
      assert forall i :: 0 <= i < |init| ==> init[i] == f[i];
      match MapValuesSpec(init, g)
      case Err(e) => Err(e)
      case Ok(out) =>
        match g(last.0, last.1)
        case Err(e) => Err(e)
        case Ok(v) => Ok(out + [(last.0, v)])
  }

  lemma MapValuesKeys(f: Fields, g: (string, Json) -> Result<Json>)
    requires MapValuesSpec(f, g).Ok?
    ensures Keys(MapValuesSpec(f, g).value) == Keys(f)
  {
    var r := MapValuesSpec(f, g).value;
    assert forall i :: 0 <= i < |f| ==> Keys(r)[i] == Keys(f)[i];
  }

  /** In a dict, the mapped value under `k` is `g` of the old one. */
  lemma MapValuesGet(f: Fields, g: (string, Json) -> Result<Json>, k: string)
    requires UniqueKeys(f) && MapValuesSpec(f, g).Ok? && Has(f, k)
    ensures Get(MapValuesSpec(f, g).value, k) == Some(g(k, Get(f, k).value).value)
  {
    var r := MapValuesSpec(f, g).value;
    MapValuesKeys(f, g);
    SameKeysUnique(f, r);
    var i := HasAt(f, k);
    UniqueKeysGet(f, i);
    UniqueKeysGet(r, i);
  }

  /** `for k, v in d.items(): <update v in place>`, one value at a time. */
  method MapValues(f: Fields, g: (string, Json) -> Result<Json>) returns (r: Result<Fields>)
    ensures r == MapValuesSpec(f, g)
  {
    var out: Fields := [];
    var i := 0;
    while i < |f|
      invariant 0 <= i <= |f|
      invariant MapValuesSpec(f[..i], g) == Ok(out)
    {
      var v := g(f[i].0, f[i].1);
      assert f[..i + 1][..i] == f[..i];
      if v.Err? {
        MapValuesErr(f, g, i + 1);
        return Err(v.error);
      }
      out := out + [(f[i].0, v.value)];
      i := i + 1;
    }
    assert f[..i] == f;
    r := Ok(out);
  }

  /** Once a prefix raises, the whole map raises with the same error. */
  lemma {:induction false} MapValuesErr(f: Fields, g: (string, Json) -> Result<Json>, n: nat)
    requires n <= |f| && MapValuesSpec(f[..n], g).Err?
    ensures MapValuesSpec(f, g) == MapValuesSpec(f[..n], g)
    decreases |f| - n
  {
    if n < |f| {
      assert f[..n + 1][..n] == f[..n];
      MapValuesErr(f, g, n + 1);
    } else {
      assert f[..n] == f;
    }
  }
}
