/**
 * The few JavaScript string operations the app relies on: `toLowerCase`,
 * `trim`, `split(/\s+/)`, `includes` and `startsWith`, over strings taken as
 * sequences of Unicode scalar values.
 */
module Strings {

  /** The WhiteSpace and LineTerminator characters of ECMAScript; `trim`
      removes exactly these and the regular-expression class `\s` matches
      exactly these. */
  predicate IsSpace(c: char) {
    || c == ' ' || c == '\t' || c == '\n' || c == '\U{B}' || c == '\U{C}' || c == '\r'
    || c == '\U{A0}' || c == '\U{1680}' || ('\U{2000}' <= c <= '\U{200A}')
    || c == '\U{2028}' || c == '\U{2029}' || c == '\U{202F}' || c == '\U{205F}'
    || c == '\U{3000}' || c == '\U{FEFF}'
  }

  /** Every character of `s` is white space (the empty string included). */
  predicate Blank(s: string) {
    forall i :: 0 <= i < |s| ==> IsSpace(s[i])
  }

  /** No character of `s` is white space. */
  predicate Solid(s: string) {
    forall i :: 0 <= i < |s| ==> !IsSpace(s[i])
  }

  /** The capitals that lower-casing changes: the ASCII capitals and the
      Latin-1 capitals (U+00C0..U+00DE except the multiplication sign), which
      cover Å, Ä, Ö and É of the Swedish country names. */
  predicate IsUpper(c: char) {
    'A' <= c <= 'Z' || ('\U{C0}' <= c <= '\U{DE}' && c != '\U{D7}')
  }

  /** Lower-casing of one character: a capital moves 32 places down to its
      small letter. */
  function LowerChar(c: char): char {
    if IsUpper(c) then (c as int + 32) as char else c
  }

  /** `toLowerCase`: the same length, no capital left, and every character
      that is not a capital kept as it is. */
  function Lower(s: string): (r: string)
    ensures |r| == |s|
    ensures forall i :: 0 <= i < |s| ==> !IsUpper(r[i])
    ensures forall i :: 0 <= i < |s| && !IsUpper(s[i]) ==> r[i] == s[i]
    ensures forall i :: 0 <= i < |s| && IsUpper(s[i]) ==> r[i] as int == s[i] as int + 32
  {
    seq(|s|, i requires 0 <= i < |s| => LowerChar(s[i]))
  }

  lemma LowerAppend(a: string, b: string)
    ensures Lower(a + b) == Lower(a) + Lower(b)
  {
  }

  /** Lower-casing twice is lower-casing once. */
  lemma LowerIdempotent(s: string)
    ensures Lower(Lower(s)) == Lower(s)
  {
  }

  /** Lower-casing a space-separated join lower-cases each part in place. */
  lemma LowerJoin(a: string, b: string, c: string, d: string, e: string)
    ensures Lower(a + " " + b + " " + c + " " + d + " " + e)
         == Lower(a) + " " + Lower(b) + " " + Lower(c) + " " + Lower(d) + " " + Lower(e)
  {
  }

  /** Lower-casing never creates or removes white space. */
  lemma LowerKeepsSpaces(s: string)
    ensures forall i :: 0 <= i < |s| ==> (IsSpace(Lower(s)[i]) <==> IsSpace(s[i]))
  {
  }

  /** `s.startsWith(prefix)` */
  predicate StartsWith(s: string, prefix: string) {
    |prefix| <= |s| && s[..|prefix|] == prefix
  }

  /** `t` occurs in `s` starting at offset `i`. */
  predicate OccursAt(s: string, t: string, i: int) {
    0 <= i <= |s| - |t| && s[i..i + |t|] == t
  }

  /** `s.includes(t)`: `t` occurs at some offset of `s`. */
  predicate Contains(s: string, t: string) {
    exists i :: 0 <= i <= |s| - |t| && OccursAt(s, t, i)
  }

  lemma PrefixIsContained(s: string, prefix: string)
    requires StartsWith(s, prefix)
    ensures Contains(s, prefix)
  {
    assert OccursAt(s, prefix, 0);
  }

  /** A string contains each of its suffixes. */
  lemma SuffixIsContained(s: string, suffix: string)
    requires |suffix| <= |s| && s[|s| - |suffix|..] == suffix
    ensures Contains(s, suffix)
  {
    assert OccursAt(s, suffix, |s| - |suffix|);
  }

  /** A substring of a substring is a substring. */
  lemma ContainsTransitive(s: string, t: string, u: string)
    requires Contains(s, t) && Contains(t, u)
    ensures Contains(s, u)
  {
    var i :| 0 <= i <= |s| - |t| && OccursAt(s, t, i);
    assert s[i..i + |t|] == t;
    var j :| 0 <= j <= |t| - |u| && OccursAt(t, u, j);
    assert t[j..j + |u|] == u;
    forall k | 0 <= k < |u| ensures s[i + j + k] == u[k] {
      assert u[k] == t[j..j + |u|][k] == t[j + k];
      assert t[j + k] == s[i..i + |t|][j + k];
    }
    assert s[i + j..i + j + |u|] == u;
    assert OccursAt(s, u, i + j);
  }

  /** A substring of a suffix is a substring of the whole. */
  lemma ContainsInSuffix(s: string, n: nat, t: string)
    requires n <= |s| && Contains(s[n..], t)
    ensures Contains(s, t)
  {
    var i :| 0 <= i <= |s[n..]| - |t| && OccursAt(s[n..], t, i);
    assert s[n..][i..i + |t|] == t;
    assert s[n + i..n + i + |t|] == s[n..][i..i + |t|];
    assert OccursAt(s, t, n + i);
  }

  /** Number of leading white-space characters of `s`. */
  function LeadingSpaces(s: string): (n: nat)
    ensures n <= |s| && Blank(s[..n])
    ensures n < |s| ==> !IsSpace(s[n])
  {
    if |s| > 0 && IsSpace(s[0]) then
      var n := 1 + LeadingSpaces(s[1..]);
      BlankStep(s, n);
      n
    else 0
  }

  /** Number of trailing white-space characters of `s`. */
  function TrailingSpaces(s: string): (n: nat)
    ensures n <= |s| && Blank(s[|s| - n..])
    ensures n < |s| ==> !IsSpace(s[|s| - n - 1])
  {
    if |s| > 0 && IsSpace(s[|s| - 1]) then
      var n := 1 + TrailingSpaces(s[..|s| - 1]);
      BlankStepEnd(s, |s| - n);
      n
    else 0
  }

  /** A blank prefix after one leading space is a blank prefix one longer. */
  lemma BlankStep(s: string, n: nat)
    requires 0 < n <= |s| && IsSpace(s[0]) && Blank(s[1..][..n - 1])
    ensures Blank(s[..n])
  {
    forall k | 0 < k < n ensures IsSpace(s[k]) {
      assert s[k] == s[1..][..n - 1][k - 1];
    }
  }

  /** A blank suffix before one trailing space is a blank suffix one longer. */
  lemma BlankStepEnd(s: string, n: nat)
    requires n < |s| && IsSpace(s[|s| - 1]) && Blank(s[..|s| - 1][n..])
    ensures Blank(s[n..])
  {
    forall k | n <= k < |s| - 1 ensures IsSpace(s[k]) {
      assert s[k] == s[..|s| - 1][n..][k - n];
    }
  }

  /** `s.trimStart()` */
  function TrimStart(s: string): (r: string)
    ensures |r| <= |s| && r == s[|s| - |r|..]
    ensures Blank(s[..|s| - |r|])
    ensures r == [] || !IsSpace(r[0])
  {
    s[LeadingSpaces(s)..]
  }

  /** `s.trimEnd()` */
  function TrimEnd(s: string): (r: string)
    ensures |r| <= |s| && r == s[..|r|]
    ensures Blank(s[|r|..])
    ensures r == [] || !IsSpace(r[|r| - 1])
  {
    s[..|s| - TrailingSpaces(s)]
  }

  /** `s.trim()`: the part of `s` left between a blank prefix and a blank
      suffix, with no white space at either end. */
  function Trim(s: string): (r: string)
    ensures exists i :: 0 <= i <= |s| - |r| && r == s[i..i + |r|] && Blank(s[..i]) && Blank(s[i + |r|..])
    ensures r == [] || (!IsSpace(r[0]) && !IsSpace(r[|r| - 1]))
  {
    var t := TrimStart(s);
    var r := TrimEnd(t);
    var i := |s| - |t|;
    assert r == s[i..i + |r|];
    assert s[i + |r|..] == t[|r|..];
    r
  }

  /** Trimming leaves nothing exactly when the string is blank. */
  lemma {:induction false} TrimEmptyIffBlank(s: string)
    ensures Trim(s) == [] <==> Blank(s)
  {
    var n := LeadingSpaces(s);
    var t := TrimStart(s);
    assert t == s[n..];
    if Trim(s) == [] {
      assert Blank(t[0..]);
      assert n == |s|;
      assert s[..n] == s;
    } else if n < |s| {
      assert !IsSpace(s[n]);
    }
  }

  /** What trimming leaves occurs in the original string. */
  lemma TrimIsContained(s: string)
    ensures Contains(s, Trim(s))
  {
    var t := TrimStart(s);
    var r := TrimEnd(t);
    var i := |s| - |t|;
    assert r == s[i..i + |r|];
    assert OccursAt(s, r, i);
  }

  /** Number of leading non-white-space characters of `s`. */
  function RunLength(s: string): (n: nat)
    ensures n <= |s| && Solid(s[..n])
    ensures n < |s| ==> IsSpace(s[n])
  {
    if s == [] || IsSpace(s[0]) then 0 else 1 + RunLength(s[1..])
  }

  /** The maximal runs of non-white-space characters of `s`, in order: what
      `s.split(/\s+/)` yields for a string with no white space at either end,
      and the non-empty items it yields for any other string. */
  function Words(s: string): (ws: seq<string>)
    ensures forall k :: 0 <= k < |ws| ==> |ws[k]| > 0 && Solid(ws[k])
    ensures ws == [] <==> Blank(s)
    decreases |s|
  {
    if s == [] then []
    else if IsSpace(s[0]) then
      var ws := Words(s[1..]);
      assert Blank(s[1..]) ==> Blank(s) by {
        if Blank(s[1..]) {
          forall k | 0 < k < |s| ensures IsSpace(s[k]) { assert s[k] == s[1..][k - 1]; }
        }
      }
      ws
    else
      var n := RunLength(s);
      [s[..n]] + Words(s[n..])
  }

  /** Every word of `s` occurs in `s`. */
  lemma {:induction false} WordsOccur(s: string)
    ensures forall k :: 0 <= k < |Words(s)| ==> Contains(s, Words(s)[k])
    decreases |s|
  {
    if s == [] {
    } else if IsSpace(s[0]) {
      WordsOccur(s[1..]);
      assert Words(s) == Words(s[1..]);
      forall k | 0 <= k < |Words(s)| ensures Contains(s, Words(s)[k]) {
        ContainsInSuffix(s, 1, Words(s)[k]);
      }
    } else {
      var n := RunLength(s);
      WordsOccur(s[n..]);
      assert Words(s) == [s[..n]] + Words(s[n..]);
      forall k | 0 <= k < |Words(s)| ensures Contains(s, Words(s)[k]) {
        if k == 0 {
          PrefixIsContained(s, s[..n]);
        } else {
          assert Words(s)[k] == Words(s[n..])[k - 1];
          ContainsInSuffix(s, n, Words(s)[k]);
        }
      }
    }
  }
}
