/**
 * The "Sample Data Information" panel: the human label derived from a
 * variable name, and the geographic-area line derived from a bounding box.
 */
module DataDescription {
  import opened Wrappers
  import opened Text

  /** `\w` in a JavaScript regular expression without the `u` flag. */
  predicate IsWordChar(c: char)
  {
    ('a' <= c <= 'z') || ('A' <= c <= 'Z') || ('0' <= c <= '9') || c == '_'
  }

  /** `toUpperCase` on a `\w` character: only `a`-`z` change. */
  function UpperWordChar(c: char): (u: char)
    requires IsWordChar(c)
    ensures IsWordChar(u)
    ensures 'a' <= c <= 'z' ==> u as int == c as int - 32
    ensures !('a' <= c <= 'z') ==> u == c
  {
    if 'a' <= c <= 'z' then (c as int - 32) as char else c
  }

  /** A character as the global `\b\w` replacement leaves it: upper-cased when
      it is a word character standing at a word boundary, untouched otherwise. */
  function Capitalized(c: char, atBoundary: bool): char
  {
    if atBoundary && IsWordChar(c) then UpperWordChar(c) else c
  }

  /** Whether a word character precedes index `i`; `afterWord` stands for what precedes the string. */
  predicate WordBefore(s: string, i: nat, afterWord: bool)
    requires i < |s|
  {
    if i == 0 then afterWord else IsWordChar(s[i - 1])
  }

  /** A `\b\w` match at index `i`: a word character with none just before it. */
  predicate StartsWord(s: string, i: nat)
    requires i < |s|
  {
    IsWordChar(s[i]) && !WordBefore(s, i, false)
  }

  /** Walks `s` left to right, knowing whether a word character came just before it. */
  function CapitalizeFrom(s: string, afterWord: bool): (r: string)
    ensures |r| == |s|
    ensures forall i {:trigger r[i]} :: 0 <= i < |s| ==> r[i] == Capitalized(s[i], !WordBefore(s, i, afterWord))
  {
    if |s| == 0 then ""
    else
      var head := Capitalized(s[0], !afterWord);
      var rest := CapitalizeFrom(s[1..], IsWordChar(s[0]));
      var r := [head] + rest;
      assert forall i :: 0 <= i < |s| ==> r[i] == Capitalized(s[i], !WordBefore(s, i, afterWord)) by {
        forall i | 0 <= i < |s|
          ensures r[i] == Capitalized(s[i], !WordBefore(s, i, afterWord))
        {
          if i > 0 {
            assert r[i] == rest[i - 1] && s[1..][i - 1] == s[i];
            assert WordBefore(s[1..], i - 1, IsWordChar(s[0])) == WordBefore(s, i, afterWord);
          }
        }
      }
      r
  }

  /** `s.replace(/\b\w/g, l => l.toUpperCase())`: exactly the characters that start
      a word are upper-cased; every other character is left as it was. */
  function CapitalizeWords(s: string): (r: string)
    ensures |r| == |s|
    ensures forall i {:trigger r[i]} :: 0 <= i < |s| ==> (StartsWord(s, i) ==> r[i] == UpperWordChar(s[i]))
    ensures forall i {:trigger r[i]} :: 0 <= i < |s| ==> (!StartsWord(s, i) ==> r[i] == s[i])
  {
    CapitalizeFrom(s, false)
  }

  const ProductPrefix := "product/"

  /** The label shown for a variable name: first `product/` dropped, underscores to spaces, words capitalised. */
  function VariableLabel(variable: string): (r: string)
    ensures |r| == |ReplaceFirst(variable, ProductPrefix, "")|
    ensures '_' !in r
  {
    var base := ReplaceFirst(variable, ProductPrefix, "");
    var spaced := ReplaceChar(base, '_', " ");
    ReplaceCharLength(base, '_', " ");
    var r := CapitalizeWords(spaced);
    assert forall i :: 0 <= i < |r| ==> r[i] != '_' by {
      forall i | 0 <= i < |r| ensures r[i] != '_' {
        assert spaced[i] in spaced;
      }
    }
    r
  }

  /** `replace('product/', '')` removes exactly eight characters when the prefix occurs anywhere, none otherwise. */
  lemma ReplaceFirstLength(s: string)
    ensures IndexOf(s, ProductPrefix).Some? ==> |ReplaceFirst(s, ProductPrefix, "")| == |s| - 8
    ensures IndexOf(s, ProductPrefix).None? ==> ReplaceFirst(s, ProductPrefix, "") == s
  {
  }

  /** What the label is, character by character: the name with its first
      `product/` cut out, then `_` read as a space, then words capitalised. */
  lemma {:induction false} VariableLabelChars(variable: string, k: nat)
    requires k < |VariableLabel(variable)|
    ensures var base := ReplaceFirst(variable, ProductPrefix, "");
            var spaced := ReplaceChar(base, '_', " ");
            |spaced| == |base| && k < |base|
            && spaced[k] == (if base[k] == '_' then ' ' else base[k])
            && VariableLabel(variable)[k] == Capitalized(spaced[k], !WordBefore(spaced, k, false))
  {
    var base := ReplaceFirst(variable, ProductPrefix, "");
    ReplaceCharLength(base, '_', " ");
    ReplaceCharAt(base, '_', ' ', k);
  }

  /** The label never contains an underscore, and its length is the name's
      length less eight exactly when `product/` occurs in the name. */
  lemma VariableLabelShape(variable: string)
    ensures '_' !in VariableLabel(variable)
    ensures |VariableLabel(variable)| == if IndexOf(variable, ProductPrefix).Some? then |variable| - 8 else |variable|
  {
    ReplaceFirstLength(variable);
  }

  // ---------------------------------------------------------------------------
  // Geographic area

  /** `formatBbox` (and its caller's `bbox ? ... : 'Global'`): `Global` unless
      there are exactly four numbers, which are shown west, south, east, north,
      each labelled with a fixed `°W`/`°N` suffix whatever its sign. `fixed1`
      stands for `toFixed(1)`. */
  function GeographicArea(bbox: Option<seq<real>>, fixed1: real -> string): (r: string)
    ensures r == "Global" <==> bbox.None? || |bbox.value| != 4
    ensures bbox.Some? && |bbox.value| == 4 ==>
              r == fixed1(bbox.value[0]) + "°W, " + fixed1(bbox.value[1]) + "°N to "
                   + fixed1(bbox.value[2]) + "°W, " + fixed1(bbox.value[3]) + "°N"
  {
    match bbox
    case None => "Global"
    case Some(b) =>
      if |b| != 4 then "Global"
      else
        var west, south, east, north := b[0], b[1], b[2], b[3];
        fixed1(west) + "°W, " + fixed1(south) + "°N to " + fixed1(east) + "°W, " + fixed1(north) + "°N"
  }
}
