/** The JavaScript string operations the source uses, on `string`
    (a sequence of code points): `includes`, `startsWith`, `trim`,
    `toLowerCase`, comparison with `<=`, `join`, and replacing runs of
    characters as `replace(/x+/g, c)` does. JavaScript compares strings by
    UTF-16 code units; this model compares code points, which agrees except
    for characters outside the Basic Multilingual Plane. */
module Text {

  /** `s.startsWith(prefix)` */
  predicate StartsWith(s: string, prefix: string) {
    |prefix| <= |s| && s[..|prefix|] == prefix
  }

  /** `s.includes(sub)`: `sub` occurs somewhere in `s` (the empty string
      occurs in every string). */
  predicate Contains(s: string, sub: string)
    decreases |s|
  {
    StartsWith(s, sub) || (|s| > 0 && Contains(s[1..], sub))
  }

  /** Some element of `subs` occurs in `s` (`labels.some(l => s.includes(l))`). */
  predicate ContainsAny(s: string, subs: seq<string>) {
    exists k :: 0 <= k < |subs| && Contains(s, subs[k])
  }

  lemma {:induction false} ContainsItself(s: string)
    ensures Contains(s, s)
  {
    assert s[..|s|] == s;
  }

  lemma {:induction false} ContainsEmpty(s: string)
    ensures Contains(s, "")
  {
    assert s[..0] == "";
  }

  /** Lower-casing of one character; only the ASCII letters are mapped. */
  function LowerChar(c: char): char {
    if 'A' <= c <= 'Z' then (c as int + 32) as char else c
  }

  /** `s.toLowerCase()`, for the ASCII letters. */
  function ToLower(s: string): (r: string)
    ensures |r| == |s|
    ensures forall i :: 0 <= i < |s| ==> r[i] == LowerChar(s[i])
  {
    seq(|s|, i requires 0 <= i < |s| => LowerChar(s[i]))
  }

  /** ECMAScript WhiteSpace and LineTerminator code points: what `trim()`
      strips and what `\s` matches. */
  predicate IsSpace(c: char) {
    c == '\t' || c == '\n' || c == '\U{B}' || c == '\U{C}' || c == '\r' || c == ' '
    || c == '\U{A0}' || c == '\U{1680}' || ('\U{2000}' <= c <= '\U{200A}')
    || c == '\U{2028}' || c == '\U{2029}' || c == '\U{202F}' || c == '\U{205F}'
    || c == '\U{3000}' || c == '\U{FEFF}'
  }

  function TrimStart(s: string): (r: string)
    ensures |r| <= |s| && r == s[|s| - |r|..]
    ensures r == [] || !IsSpace(r[0])
  {
    if |s| > 0 && IsSpace(s[0]) then TrimStart(s[1..]) else s
  }

  function TrimEnd(s: string): (r: string)
    ensures |r| <= |s| && r == s[..|r|]
    ensures r == [] || !IsSpace(r[|r| - 1])
  {
    if |s| > 0 && IsSpace(s[|s| - 1]) then TrimEnd(s[..|s| - 1]) else s
  }

  /** `s.trim()` */
  function Trim(s: string): string {
    TrimEnd(TrimStart(s))
  }

  /** A string that neither starts nor ends with white space. */
  predicate IsTrimmed(s: string) {
    s == [] || (!IsSpace(s[0]) && !IsSpace(s[|s| - 1]))
  }

  /** `trim()` strips all leading and trailing white space and nothing else:
      its result is trimmed, and it leaves a trimmed string as it is. */
  lemma TrimSpec(s: string)
    ensures IsTrimmed(Trim(s))
    ensures IsTrimmed(s) ==> Trim(s) == s
  {
    var t := TrimStart(s);
    var r := TrimEnd(t);
    if r != [] {
      assert r[0] == t[0];
    }
  }

  /** JavaScript's `a <= b` on strings: lexicographic order, here of code
      points rather than UTF-16 code units, a proper prefix sorting first. */
  predicate LexLe(a: string, b: string)
    decreases |a|
  {
    if a == [] then true
    else if b == [] then false
    else if a[0] < b[0] then true
    else if a[0] > b[0] then false
    else LexLe(a[1..], b[1..])
  }

  lemma {:induction false} LexLeReflexive(a: string)
    ensures LexLe(a, a)
  {
    if a != [] {
      LexLeReflexive(a[1..]);
    }
  }

  lemma {:induction false} LexLeTotal(a: string, b: string)
    ensures LexLe(a, b) || LexLe(b, a)
  {
    if a != [] && b != [] && a[0] == b[0] {
      LexLeTotal(a[1..], b[1..]);
    }
  }

  lemma {:induction false} LexLeTransitive(a: string, b: string, c: string)
    requires LexLe(a, b) && LexLe(b, c)
    ensures LexLe(a, c)
  {
    if a != [] && b != [] && c != [] && a[0] == b[0] == c[0] {
      LexLeTransitive(a[1..], b[1..], c[1..]);
    }
  }

  lemma {:induction false} LexLeAntisymmetric(a: string, b: string)
    requires LexLe(a, b) && LexLe(b, a)
    ensures a == b
  {
    if a != [] && b != [] {
      LexLeAntisymmetric(a[1..], b[1..]);
      assert a == [a[0]] + a[1..];
      assert b == [b[0]] + b[1..];
    }
  }

  /** `parts.join(sep)` */
  function Join(parts: seq<string>, sep: string): string {
    if |parts| == 0 then ""
    else if |parts| == 1 then parts[0]
    else parts[0] + sep + Join(parts[1..], sep)
  }

  /** The suffix left after dropping the leading characters satisfying `p`. */
  function DropWhile(s: string, p: char -> bool): (r: string)
    ensures |r| <= |s|
    ensures r == [] || !p(r[0])
    ensures |s| > 0 && p(s[0]) ==> |r| < |s|
  {
    if |s| > 0 && p(s[0]) then DropWhile(s[1..], p) else s
  }

  /** What `DropWhile` drops is a prefix of characters satisfying `p`. */
  lemma {:induction false} DropWhileSuffix(s: string, p: char -> bool)
    ensures var r := DropWhile(s, p);
      r == s[|s| - |r|..] && forall i :: 0 <= i < |s| - |r| ==> p(s[i])
  {
    if |s| > 0 && p(s[0]) {
      DropWhileSuffix(s[1..], p);
    }
  }

  /** `s.replace(/P+/g, c)` for a one-character replacement `c`: every
      maximal run of characters satisfying `p` becomes a single `c`. */
  function ReplaceRuns(s: string, p: char -> bool, c: char): string
    decreases |s|
  {
    if s == [] then []
    else if p(s[0]) then [c] + ReplaceRuns(DropWhile(s, p), p, c)
    else [s[0]] + ReplaceRuns(s[1..], p, c)
  }

  /** A replacement starts with the first character when that is kept. */
  lemma ReplaceRunsHead(s: string, p: char -> bool, c: char)
    requires s != [] && !p(s[0])
    ensures ReplaceRuns(s, p, c) != [] && ReplaceRuns(s, p, c)[0] == s[0]
  {
  }

  /** Each character of the result is the replacement or a character of
      the input outside the runs; so a property every such character has
      carries over. */
  lemma {:induction false} ReplaceRunsChars(s: string, p: char -> bool, c: char, q: char -> bool)
    requires forall i :: 0 <= i < |s| ==> q(s[i]) || p(s[i])
    requires q(c)
    ensures forall i :: 0 <= i < |ReplaceRuns(s, p, c)| ==> q(ReplaceRuns(s, p, c)[i])
    decreases |s|
  {
    if s != [] {
      if p(s[0]) {
        var d := DropWhile(s, p);
        DropWhileSuffix(s, p);
        assert forall i :: 0 <= i < |d| ==> d[i] == s[|s| - |d| + i];
        ReplaceRunsChars(d, p, c, q);
      } else {
        ReplaceRunsChars(s[1..], p, c, q);
      }
    }
  }

  /** No two neighbours of `s` both satisfy `p`. */
  predicate NoAdjacent(s: string, p: char -> bool) {
    forall i :: 0 <= i < |s| - 1 ==> !(p(s[i]) && p(s[i + 1]))
  }

  /** Two neighbours of the result never both satisfy `p`, when the
      replacement itself does: every run has become one character. */
  lemma {:induction false} ReplaceRunsNoRuns(s: string, p: char -> bool, c: char)
    requires p(c)
    ensures NoAdjacent(ReplaceRuns(s, p, c), p)
    decreases |s|
  {
    if s != [] {
      if p(s[0]) {
        var d := DropWhile(s, p);
        ReplaceRunsNoRuns(d, p, c);
        if d != [] {
          ReplaceRunsHead(d, p, c);
        }
      } else {
        var t := s[1..];
        ReplaceRunsNoRuns(t, p, c);
        var r, rt := ReplaceRuns(s, p, c), ReplaceRuns(t, p, c);
        assert r == [s[0]] + rt;
        forall i | 0 <= i < |r| - 1 ensures !(p(r[i]) && p(r[i + 1])) {
          if i > 0 {
            assert r[i] == rt[i - 1] && r[i + 1] == rt[i];
          }
        }
      }
    }
  }

  /** A string whose `p`-characters are single copies of the replacement
      is left as it is. */
  lemma {:induction false} ReplaceRunsIdentity(s: string, p: char -> bool, c: char)
    requires forall i :: 0 <= i < |s| && p(s[i]) ==> s[i] == c
    requires NoAdjacent(s, p)
    ensures ReplaceRuns(s, p, c) == s
    decreases |s|
  {
    if s != [] {
      var t := s[1..];
      assert forall i :: 0 <= i < |t| ==> t[i] == s[i + 1];
      ReplaceRunsIdentity(t, p, c);
      if p(s[0]) {
        assert DropWhile(t, p) == t;
        assert DropWhile(s, p) == t;
      }
      assert s == [s[0]] + t;
    }
  }

  /** `s.split(sep)` for a one-character separator: the pieces between
      the separators, one more than there are separators. */
  function Split(s: string, sep: char): (r: seq<string>)
    ensures |r| >= 1
    ensures forall i :: 0 <= i < |r| ==> sep !in r[i]
    decreases |s|
  {
    if s == [] then [""]
    else
      var rest := Split(s[1..], sep);
      if s[0] == sep then [""] + rest
      else [[s[0]] + rest[0]] + rest[1..]
  }

  /** Joining the pieces with the separator gives the string back. */
  lemma {:induction false} JoinSplit(s: string, sep: char)
    ensures Join(Split(s, sep), [sep]) == s
    decreases |s|
  {
    if s != [] {
      var rest := Split(s[1..], sep);
      JoinSplit(s[1..], sep);
      var r := Split(s, sep);
      if s[0] == sep {
        assert r[1..] == rest;
        assert s == [sep] + s[1..];
      } else if |rest| == 1 {
        assert s == [s[0]] + s[1..];
      } else {
        assert r[1..] == rest[1..];
        assert Join(rest, [sep]) == rest[0] + [sep] + Join(rest[1..], [sep]);
        assert s == [s[0]] + s[1..];
      }
    }
  }

  /** `s.replace(/[^...]/g, "")`: drop the characters not satisfying `keep`. */
  function KeepOnly(s: string, keep: char -> bool): (r: string)
    ensures |r| <= |s|
    ensures forall i :: 0 <= i < |r| ==> keep(r[i])
  {
    if s == [] then []
    else if keep(s[0]) then [s[0]] + KeepOnly(s[1..], keep)
    else KeepOnly(s[1..], keep)
  }

  /** Keeping every character leaves the string as it is. */
  lemma {:induction false} KeepOnlyIdentity(s: string, keep: char -> bool)
    requires forall i :: 0 <= i < |s| ==> keep(s[i])
    ensures KeepOnly(s, keep) == s
  {
    if s != [] {
      KeepOnlyIdentity(s[1..], keep);
      assert s == [s[0]] + s[1..];
    }
  }

  /** Lower-casing leaves a string without ASCII capitals as it is. */
  lemma ToLowerIdentity(s: string)
    requires forall i :: 0 <= i < |s| ==> !('A' <= s[i] <= 'Z')
    ensures ToLower(s) == s
  {
  }
}
