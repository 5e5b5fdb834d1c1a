/**
 * String helpers shared by the front end and the Python API: decimal
 * rendering of counts and status codes, splitting on a separator, JavaScript's
 * `trim`, single-character replacement, first-occurrence replacement, and the
 * `||` fallback that JavaScript applies to an optional string.
 */
module Text {
  import opened Wrappers

  // ---------------------------------------------------------------------------
  // Decimal rendering (`${n}` in a template string, `str(n)` in Python)

  predicate IsDigit(c: char) { '0' <= c <= '9' }

  function DigitChar(d: nat): (c: char)
    requires d < 10
    ensures IsDigit(c) && c as int - '0' as int == d
  {
    "0123456789"[d]
  }

  /** The decimal digits of `n`, without leading zeros. */
  function NatToString(n: nat): (s: string)
    ensures |s| >= 1
    ensures forall i :: 0 <= i < |s| ==> IsDigit(s[i])
    ensures (s[0] == '0') <==> (n == 0)
    decreases n
  {
    if n < 10 then [DigitChar(n)] else NatToString(n / 10) + [DigitChar(n % 10)]
  }

  /** The value of a string of decimal digits (the empty string reads as 0). */
  function ParseNat(s: string): nat
    requires forall i :: 0 <= i < |s| ==> IsDigit(s[i])
  {
    if |s| == 0 then 0
    else
      assert IsDigit(s[|s| - 1]);
      ParseNat(s[..|s| - 1]) * 10 + (s[|s| - 1] as int - '0' as int)
  }

  /** Reading back a rendered number gives the number: rendering loses nothing. */
  lemma {:induction false} ParseNatToString(n: nat)
    ensures ParseNat(NatToString(n)) == n
    decreases n
  {
    if n >= 10 {
      var s := NatToString(n);
      assert s[..|s| - 1] == NatToString(n / 10);
      ParseNatToString(n / 10);
    }
  }

  /** Two different numbers never render alike, so a message names its count unambiguously. */
  lemma NatToStringInjective(a: nat, b: nat)
    requires NatToString(a) == NatToString(b)
    ensures a == b
  {
    ParseNatToString(a);
    ParseNatToString(b);
  }

  // ---------------------------------------------------------------------------
  // Counting, splitting and joining on one character

  function Count(s: string, c: char): nat
  {
    if |s| == 0 then 0 else (if s[0] == c then 1 else 0) + Count(s[1..], c)
  }

  lemma {:induction false} CountZero(s: string, c: char)
    ensures Count(s, c) == 0 <==> c !in s
  {
    if |s| > 0 {
      CountZero(s[1..], c);
      assert s == [s[0]] + s[1..];
    }
  }

  /** `s.split(sep)` in JavaScript: the pieces between separators, empty ones included. */
  function Split(s: string, sep: char): (parts: seq<string>)
    ensures |parts| == Count(s, sep) + 1
    ensures forall i :: 0 <= i < |parts| ==> sep !in parts[i]
  {
    if |s| == 0 then [""]
    else
      var rest := Split(s[1..], sep);
      if s[0] == sep then [""] + rest
      else [[s[0]] + rest[0]] + rest[1..]
  }

  /** The pieces glued back together with `sep` between them. */
  function Join(parts: seq<string>, sep: char): string
    requires |parts| >= 1
  {
    if |parts| == 1 then parts[0] else parts[0] + [sep] + Join(parts[1..], sep)
  }

  /** Splitting loses nothing: joining the pieces restores the input. */
  lemma {:induction false} JoinSplit(s: string, sep: char)
    ensures Join(Split(s, sep), sep) == s
  {
    if |s| > 0 {
      JoinSplit(s[1..], sep);
      var rest := Split(s[1..], sep);
      if s[0] != sep {
        if |rest| == 1 {
          assert Split(s, sep) == [[s[0]] + rest[0]];
        } else {
          var parts := Split(s, sep);
          assert parts[1..] == rest[1..];
          assert Join(parts, sep) == [s[0]] + rest[0] + [sep] + Join(rest[1..], sep);
        }
      }
    }
  }

  /** The other direction: pieces free of the separator come back from splitting their join. */
  lemma {:induction false} SplitJoin(parts: seq<string>, sep: char)
    requires |parts| >= 1
    requires forall i :: 0 <= i < |parts| ==> sep !in parts[i]
    ensures Split(Join(parts, sep), sep) == parts
    decreases |parts|, |parts[0]|
  {
    var p := parts[0];
    if |p| == 0 {
      if |parts| > 1 {
        SplitJoin(parts[1..], sep);
        var j := Join(parts[1..], sep);
        assert Join(parts, sep) == [sep] + j;
        assert ([sep] + j)[1..] == j;
      }
    } else {
      var tail := [p[1..]] + parts[1..];
      assert forall i :: 0 <= i < |tail| ==> sep !in tail[i] by {
        forall i | 0 <= i < |tail| ensures sep !in tail[i] {
          if i > 0 { assert tail[i] == parts[i]; }
        }
      }
      SplitJoin(tail, sep);
      var s := Join(parts, sep);
      assert s == [p[0]] + Join(tail, sep) by {
        if |parts| == 1 {
        } else {
          assert tail[1..] == parts[1..];
        }
      }
      assert s[1..] == Join(tail, sep);
      assert p[0] != sep by { assert p[0] == parts[0][0]; }
      assert [p[0]] + p[1..] == p;
    }
  }

  // ---------------------------------------------------------------------------
  // JavaScript `String.prototype.trim`

  /** The characters `trim` strips: ECMAScript WhiteSpace and LineTerminator. */
  predicate IsJsSpace(c: char)
  {
    c == ' ' || c == '\t' || c == '\n' || c == '\r' || c == '\U{000B}' || c == '\U{000C}'
    || c == '\U{00A0}' || c == '\U{FEFF}' || c == '\U{1680}' || ('\U{2000}' <= c <= '\U{200A}')
    || c == '\U{2028}' || c == '\U{2029}' || c == '\U{202F}' || c == '\U{205F}' || c == '\U{3000}'
  }

  predicate AllSpace(s: string) { forall i :: 0 <= i < |s| ==> IsJsSpace(s[i]) }

  /** The end of the run of white space in `s` that starts at `i`. */
  function SpaceRun(s: string, i: nat): (j: nat)
    requires i <= |s|
    ensures i <= j <= |s|
    ensures forall k :: i <= k < j ==> IsJsSpace(s[k])
    ensures j == |s| || !IsJsSpace(s[j])
    decreases |s| - i
  {
    if i < |s| && IsJsSpace(s[i]) then SpaceRun(s, i + 1) else i
  }

  /** The start of the run of white space in `s` that ends at `j`, not going below `lo`. */
  function SpaceRunBack(s: string, lo: nat, j: nat): (i: nat)
    requires lo <= j <= |s|
    ensures lo <= i <= j
    ensures forall k :: i <= k < j ==> IsJsSpace(s[k])
    ensures i == lo || !IsJsSpace(s[i - 1])
  {
    if lo < j && IsJsSpace(s[j - 1]) then SpaceRunBack(s, lo, j - 1) else j
  }

  /** `s.trim()`: white space cut off at both ends, so the result neither starts
      nor ends with it, and it is empty exactly when `s` is all white space. */
  function Trim(s: string): (r: string)
    ensures r == [] || (!IsJsSpace(r[0]) && !IsJsSpace(r[|r| - 1]))
    ensures r == [] <==> AllSpace(s)
  {
    var i := SpaceRun(s, 0);
    var j := SpaceRunBack(s, i, |s|);
    s[i..j]
  }

  /** What `trim` removes is white space only: the result is a slice of `s`
      with nothing but white space on either side of it. */
  lemma TrimCutsOnlySpace(s: string)
    ensures exists i, j :: 0 <= i <= j <= |s| && Trim(s) == s[i..j] && AllSpace(s[..i]) && AllSpace(s[j..])
  {
    var i := SpaceRun(s, 0);
    var j := SpaceRunBack(s, i, |s|);
    assert AllSpace(s[..i]);
    assert AllSpace(s[j..]);
  }

  // ---------------------------------------------------------------------------
  // Replacement

  /** Every occurrence of the character `c` replaced by `rep` (`s.replace(/c/g, rep)`,
      Python's `s.replace(c, rep)`). */
  function ReplaceChar(s: string, c: char, rep: string): (r: string)
    ensures c !in rep ==> c !in r
  {
    if |s| == 0 then ""
    else (if s[0] == c then rep else [s[0]]) + ReplaceChar(s[1..], c, rep)
  }

  /** Each replaced character adds `|rep| - 1` characters to the length. */
  lemma {:induction false} ReplaceCharLength(s: string, c: char, rep: string)
    ensures |ReplaceChar(s, c, rep)| == |s| + Count(s, c) * (|rep| - 1)
  {
    if |s| > 0 {
      ReplaceCharLength(s[1..], c, rep);
      var n := Count(s[1..], c);
      if s[0] == c {
        assert (n + 1) * (|rep| - 1) == n * (|rep| - 1) + |rep| - 1;
      }
    }
  }

  /** The replacement works character by character: replacing in a concatenation
      is replacing in each half, and a single character becomes `rep` exactly when
      it is `c`. Together these fix every character of the result. */
  lemma {:induction false} ReplaceCharAppend(a: string, b: string, c: char, rep: string)
    ensures ReplaceChar(a + b, c, rep) == ReplaceChar(a, c, rep) + ReplaceChar(b, c, rep)
  {
    if |a| == 0 {
      assert a + b == b;
    } else {
      assert (a + b)[0] == a[0];
      assert (a + b)[1..] == a[1..] + b;
      ReplaceCharAppend(a[1..], b, c, rep);
    }
  }

  lemma ReplaceCharSingle(x: char, c: char, rep: string)
    ensures ReplaceChar([x], c, rep) == if x == c then rep else [x]
  {
    assert [x][1..] == [];
  }

  /** Characters other than `c` survive a replacement in place when `rep` is one character. */
  lemma {:induction false} ReplaceCharAt(s: string, c: char, d: char, k: nat)
    requires k < |s|
    ensures |ReplaceChar(s, c, [d])| == |s|
    ensures ReplaceChar(s, c, [d])[k] == if s[k] == c then d else s[k]
  {
    ReplaceCharLength(s, c, [d]);
    if k > 0 { ReplaceCharAt(s[1..], c, d, k - 1); }
  }

  /** `pat` occurs in `s` starting at index `i`. */
  predicate OccursAt(s: string, pat: string, i: nat)
  {
    i + |pat| <= |s| && s[i..i + |pat|] == pat
  }

  lemma ShiftOccurs(s: string, pat: string)
    requires |s| >= 1
    ensures forall i: nat :: OccursAt(s, pat, i + 1) <==> OccursAt(s[1..], pat, i)
  {
    forall i: nat ensures OccursAt(s, pat, i + 1) <==> OccursAt(s[1..], pat, i) {
      if i + 1 + |pat| <= |s| {
        var t, u := s[i + 1..i + 1 + |pat|], s[1..][i..i + |pat|];
        assert forall k :: 0 <= k < |pat| ==> u[k] == t[k];
        assert t == u;
      }
    }
  }

  /** The index of the first occurrence of `pat` in `s`, if any (`s.indexOf(pat)`). */
  function IndexOf(s: string, pat: string): (r: Option<nat>)
    ensures r.Some? ==> OccursAt(s, pat, r.value)
    ensures r.Some? ==> forall i :: 0 <= i < r.value ==> !OccursAt(s, pat, i)
    ensures r.None? ==> forall i: nat :: !OccursAt(s, pat, i)
    decreases |s|
  {
    if |s| < |pat| then None
    else if s[..|pat|] == pat then Some(0)
    else
      var r := IndexOf(s[1..], pat);
      ShiftOccurs(s, pat);
      assert forall i: nat :: i >= 1 ==> (OccursAt(s, pat, i) <==> OccursAt(s[1..], pat, i - 1));
      if r.None? then None else Some(r.value + 1)
  }

  /** `s.replace(pat, rep)` with a string pattern: only the first occurrence goes. */
  function ReplaceFirst(s: string, pat: string, rep: string): (r: string)
    ensures IndexOf(s, pat).None? ==> r == s
    ensures IndexOf(s, pat).Some? ==>
      var i := IndexOf(s, pat).value;
      |r| == |s| - |pat| + |rep| && r[..i] == s[..i] && r[i..i + |rep|] == rep && r[i + |rep|..] == s[i + |pat|..]
  {
    match IndexOf(s, pat)
    case None => s
    case Some(i) => s[..i] + rep + s[i + |pat|..]
  }

  // ---------------------------------------------------------------------------
  // JavaScript truthiness of an optional string

  /** `m || fallback` where `m` is an optional string: an absent or empty string is falsy. */
  function OrElse(m: Option<string>, fallback: string): (r: string)
    ensures r == fallback <== (m.None? || m.value == "")
    ensures (m.Some? && m.value != "") ==> r == m.value
  {
    if m.Some? && m.value != "" then m.value else fallback
  }
}
