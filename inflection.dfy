// The two `inflection` helpers the code calls, written out for ASCII text.
//
// `underscore(word)` applies two regular-expression substitutions,
// `([A-Z]+)([A-Z][a-z])` -> `\1_\2` and `([a-z\d])([A-Z])` -> `\1_\2`, then
// replaces `-` by `_` and lower-cases the result.  `camelize(word)` (with its
// default `uppercase_first_letter=True`) replaces `(?:^|_)(.)` by the
// upper-cased character.  Both are modelled character by character.

module Inflection {

  import opened Text

  /** First substitution: an `_` before the last letter of an upper-case run
      of length two or more that is followed by a lower-case letter. */
  function SplitAcronyms(s: string): (r: string)
    ensures |r| >= |s|
    ensures (forall i :: 0 <= i < |s| ==> !IsUpperChar(s[i])) ==> r == s
    decreases |s|
  {
    if |s| < 3 then s
    else if IsUpperChar(s[0]) && IsUpperChar(s[1]) && IsLowerChar(s[2]) then [s[0], '_'] + SplitAcronyms(s[1..])
    else [s[0]] + SplitAcronyms(s[1..])
  }

  /** Second substitution: an `_` between a lower-case letter or digit and a
      following upper-case letter. */
  function SplitWords(s: string): (r: string)
    ensures |r| >= |s|
    ensures (forall i :: 0 <= i < |s| ==> !IsUpperChar(s[i])) ==> r == s
    decreases |s|
  {
    if |s| < 2 then s
    else if (IsLowerChar(s[0]) || IsDigitChar(s[0])) && IsUpperChar(s[1]) then [s[0], '_'] + SplitWords(s[1..])
    else [s[0]] + SplitWords(s[1..])
  }

  /** `inflection.underscore(word)` */
  function Underscore(word: string): (r: string)
    ensures forall i :: 0 <= i < |r| ==> !IsUpperChar(r[i]) && r[i] != '-'
    ensures (forall i :: 0 <= i < |word| ==> !IsUpperChar(word[i]) && word[i] != '-') ==> r == word
  {
    var w := SplitWords(SplitAcronyms(word));
    var r := Lower(ReplaceChar(w, '-', '_'));
    assert forall i :: 0 <= i < |r| ==> r[i] != '-' by {
      forall i | 0 <= i < |r| ensures r[i] != '-' {
        assert ReplaceChar(w, '-', '_')[i] != '-';
      }
    }
    r
  }

  /** Underscoring is idempotent: a name already in snake case stays as it is. */
  lemma UnderscoreIdempotent(word: string)
    ensures Underscore(Underscore(word)) == Underscore(word)
  {
  }

  /** After the first character: `_x` becomes `X` unless `x` is a line break. */
  function CamelizeRest(s: string): (r: string)
    ensures |r| <= |s|
    ensures (forall i :: 0 <= i < |s| ==> s[i] != '_') ==> r == s
    decreases |s|
  {
    if s == [] then []
    else if |s| >= 2 && s[0] == '_' && s[1] != '\n' then [UpperChar(s[1])] + CamelizeRest(s[2..])
    else [s[0]] + CamelizeRest(s[1..])
  }

  /** `inflection.camelize(word)` */
  function Camelize(word: string): (r: string)
    ensures |r| <= |word|
    ensures word != [] && word[0] != '\n' ==> r != [] && r[0] == UpperChar(word[0])
    ensures (forall i :: 0 <= i < |word| ==> word[i] != '_') && word != [] && word[0] != '\n' ==>
              r == [UpperChar(word[0])] + word[1..]
  {
    if word != [] && word[0] != '\n' then [UpperChar(word[0])] + CamelizeRest(word[1..])
    else CamelizeRest(word)
  }
}
