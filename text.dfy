/** The JavaScript string operations the scan relies on, over `string`
    (a sequence of Unicode scalar values): `trim`, `length` (counted in
    UTF-16 code units, as JavaScript does), `toLowerCase` restricted to
    ASCII, `includes` and `replace` with a string pattern. */
module Text {

  /** The ECMAScript WhiteSpace and LineTerminator code points, which
      `String.prototype.trim` strips from both ends. */
  predicate IsJsWhitespace(c: char) {
    c == '\t' || c == '\n' || c == '\U{B}' || c == '\U{C}' || c == '\r' || c == ' '
    || c == '\U{A0}' || c == '\U{1680}' || ('\U{2000}' <= c <= '\U{200A}')
    || c == '\U{2028}' || c == '\U{2029}' || c == '\U{202F}' || c == '\U{205F}'
    || c == '\U{3000}' || c == '\U{FEFF}'
  }

  /** `trimStart`: drop leading whitespace. */
  function TrimStart(s: string): string
    decreases |s|
  {
    if s != [] && IsJsWhitespace(s[0]) then TrimStart(s[1..]) else s
  }

  /** `trimEnd`: drop trailing whitespace. */
  function TrimEnd(s: string): string
    decreases |s|
  {
    if s != [] && IsJsWhitespace(s[|s| - 1]) then TrimEnd(s[..|s| - 1]) else s
  }

  /** `s.trim()`. */
  function Trim(s: string): string {
    TrimEnd(TrimStart(s))
  }

  /** `TrimStart(s)` is a suffix of `s` that does not start with
      whitespace, and all it drops is whitespace. */
  lemma {:induction false} TrimStartFacts(s: string)
    ensures |TrimStart(s)| <= |s| && TrimStart(s) == s[|s| - |TrimStart(s)|..]
    ensures TrimStart(s) == [] || !IsJsWhitespace(TrimStart(s)[0])
    ensures forall i :: 0 <= i < |s| - |TrimStart(s)| ==> IsJsWhitespace(s[i])
    decreases |s|
  {
    if s != [] && IsJsWhitespace(s[0]) {
      var t := s[1..];
      TrimStartFacts(t);
      var r := TrimStart(t);
      assert TrimStart(s) == r;
      assert r == t[|t| - |r|..];
      assert t[|t| - |r|..] == s[|s| - |r|..];
      forall i | 0 <= i < |s| - |r|
        ensures IsJsWhitespace(s[i])
      {
        if i > 0 {
          assert s[i] == t[i - 1];
        }
      }
    }
  }

  /** `TrimEnd(s)` is a prefix of `s` that does not end with whitespace,
      and all it drops is whitespace. */
  lemma {:induction false} TrimEndFacts(s: string)
    ensures |TrimEnd(s)| <= |s| && TrimEnd(s) == s[..|TrimEnd(s)|]
    ensures TrimEnd(s) == [] || !IsJsWhitespace(TrimEnd(s)[|TrimEnd(s)| - 1])
    ensures forall i :: |TrimEnd(s)| <= i < |s| ==> IsJsWhitespace(s[i])
    decreases |s|
  {
    if s != [] && IsJsWhitespace(s[|s| - 1]) {
      var t := s[..|s| - 1];
      TrimEndFacts(t);
      var r := TrimEnd(t);
      assert TrimEnd(s) == r;
      assert r == t[..|r|];
      assert t[..|r|] == s[..|r|];
      forall i | |r| <= i < |s|
        ensures IsJsWhitespace(s[i])
      {
        if i < |t| {
          assert s[i] == t[i];
        }
      }
    }
  }

  /** The trimmed text neither starts nor ends with whitespace and is
      never longer than the original. */
  lemma TrimFacts(s: string)
    ensures Trim(s) == [] || (!IsJsWhitespace(Trim(s)[0]) && !IsJsWhitespace(Trim(s)[|Trim(s)| - 1]))
    ensures |Trim(s)| <= |s|
  {
    var t := TrimStart(s);
    TrimStartFacts(s);
    TrimEndFacts(t);
    var r := TrimEnd(t);
    if r != [] {
      assert r[0] == t[0];
    }
  }

  lemma TrimSitsInside(s: string)
    ensures var k := |s| - |TrimStart(s)|;
      0 <= k && k + |Trim(s)| <= |s| && Trim(s) == s[k..k + |Trim(s)|]
  {
    var t := TrimStart(s);
    var k := |s| - |t|;
    TrimStartFacts(s);
    TrimEndFacts(t);
    var r := TrimEnd(t);
    assert t == s[k..];
    assert r == t[..|r|];
    assert forall i :: 0 <= i < |r| ==> r[i] == s[k + i];
  }

  lemma TrimDropsTrailingWhitespace(s: string)
    ensures forall i :: 0 <= |s| - |TrimStart(s)| + |Trim(s)| <= i < |s| ==> IsJsWhitespace(s[i])
  {
    var t := TrimStart(s);
    var k := |s| - |t|;
    TrimStartFacts(s);
    TrimEndFacts(t);
    var r := TrimEnd(t);
    forall i | k + |r| <= i < |s|
      ensures IsJsWhitespace(s[i])
    {
      assert s[i] == t[i - k];
    }
  }

  /** Trimming removes only whitespace: `Trim(s)` sits in `s` at offset
      `k`, and everything before and after it is whitespace. */
  lemma TrimIsInfix(s: string)
    ensures var k := |s| - |TrimStart(s)|;
      && 0 <= k && k + |Trim(s)| <= |s|
      && Trim(s) == s[k..k + |Trim(s)|]
      && (forall i :: 0 <= i < k ==> IsJsWhitespace(s[i]))
      && (forall i :: k + |Trim(s)| <= i < |s| ==> IsJsWhitespace(s[i]))
  {
    TrimStartFacts(s);
    TrimSitsInside(s);
    TrimDropsTrailingWhitespace(s);
  }

  /** Number of UTF-16 code units of `s`, what JavaScript's `length`
      reports: characters outside the Basic Multilingual Plane take two. */
  function Utf16Length(s: string): (n: nat)
    ensures |s| <= n <= 2 * |s|
    ensures (forall i :: 0 <= i < |s| ==> s[i] as int < 0x1_0000) ==> n == |s|
    decreases |s|
  {
    if s == [] then 0 else (if s[0] as int < 0x1_0000 then 1 else 2) + Utf16Length(s[1..])
  }

  function LowerAscii(c: char): (d: char)
    ensures 'A' <= c <= 'Z' ==> d as int == c as int + 32
    ensures !('A' <= c <= 'Z') ==> d == c
  {
    if 'A' <= c <= 'Z' then (c as int + 32) as char else c
  }

  /** `s.toLowerCase()` on the ASCII letters. */
  function Lower(s: string): (r: string)
    ensures |r| == |s| && forall i :: 0 <= i < |s| ==> r[i] == LowerAscii(s[i])
  {
    seq(|s|, i requires 0 <= i < |s| => LowerAscii(s[i]))
  }

  ghost predicate OccursAt(s: string, p: string, i: int) {
    0 <= i && i + |p| <= |s| && s[i..i + |p|] == p
  }

  predicate StartsWith(s: string, p: string) {
    |p| <= |s| && s[..|p|] == p
  }

  predicate EndsWith(s: string, p: string) {
    |p| <= |s| && s[|s| - |p|..] == p
  }

  /** `s.includes(p)`: `p` occurs somewhere in `s`. */
  function Contains(s: string, p: string): (b: bool)
    ensures b <==> exists i :: OccursAt(s, p, i)
    decreases |s|
  {
    if StartsWith(s, p) then
      assert OccursAt(s, p, 0);
      true
    else if s == [] then
      false
    else
      var b := Contains(s[1..], p);
      assert forall i :: OccursAt(s[1..], p, i) <==> OccursAt(s, p, i + 1);
      assert !OccursAt(s, p, 0);
      assert forall i :: OccursAt(s, p, i) && i > 0 ==> OccursAt(s[1..], p, i - 1);
      b
  }

  /** `s.replace(p, "")` with a string `p`: the first occurrence of `p`
      is removed, and `s` is unchanged when `p` does not occur. */
  function RemoveFirst(s: string, p: string): (r: string)
    ensures !Contains(s, p) ==> r == s
    ensures Contains(s, p) ==> |r| == |s| - |p|
    decreases |s|
  {
    if StartsWith(s, p) then
      assert OccursAt(s, p, 0);
      s[|p|..]
    else if s == [] then
      s
    else
      var t := RemoveFirst(s[1..], p);
      assert Contains(s, p) == Contains(s[1..], p);
      [s[0]] + t
  }

  /** `names.join(sep)`. */
  function Join(names: seq<string>, sep: string): (r: string)
    ensures names == [] ==> r == []
    ensures |names| == 1 ==> r == names[0]
    decreases |names|
  {
    if names == [] then [] else if |names| == 1 then names[0]
    else names[0] + sep + Join(names[1..], sep)
  }
}
