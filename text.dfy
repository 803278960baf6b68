/**
 * The Python string builtins the core relies on, restricted to ASCII:
 * `str.lower`, `str.upper`, `str.startswith`, `in` on strings, `str.split(sep)`,
 * `str.split()` on whitespace, `str.strip(c)` and `str.replace(pat, "")`.
 */
module Text {

  predicate IsUpperAscii(c: char) { 'A' <= c <= 'Z' }
  predicate IsLowerAscii(c: char) { 'a' <= c <= 'z' }

  function LowerChar(c: char): char {
    if IsUpperAscii(c) then (c as int - 'A' as int + 'a' as int) as char else c
  }

  function UpperChar(c: char): char {
    if IsLowerAscii(c) then (c as int - 'a' as int + 'A' as int) as char else c
  }

  /** `s.lower()` */
  function Lower(s: string): (r: string)
    ensures |r| == |s|
    ensures forall i :: 0 <= i < |s| ==> r[i] == LowerChar(s[i])
  {
    seq(|s|, i requires 0 <= i < |s| => LowerChar(s[i]))
  }

  /** `s.upper()` */
  function Upper(s: string): (r: string)
    ensures |r| == |s|
    ensures forall i :: 0 <= i < |s| ==> r[i] == UpperChar(s[i])
  {
    seq(|s|, i requires 0 <= i < |s| => UpperChar(s[i]))
  }

  /** `s.startswith(p)` */
  predicate StartsWith(s: string, p: string) {
    |p| <= |s| && s[..|p|] == p
  }

  /** Python's `sub in s` on strings: `sub` occurs in `s` as a contiguous block. */
  predicate Contains(s: string, sub: string)
    decreases |s|
  {
    StartsWith(s, sub) || (s != [] && Contains(s[1..], sub))
  }

  /** The empty string occurs in every string, so `"" in s` is always true. */
  lemma EmptyOccursEverywhere(s: string)
    ensures Contains(s, "")
  {
  }

  /** Nothing but the empty string occurs in the empty string. */
  lemma NothingInEmpty(sub: string)
    requires sub != ""
    ensures !Contains("", sub)
  {
  }

  /** `s.split(sep)` for a one-character separator: never empty, keeps empty fields. */
  function Split(s: string, sep: char): (parts: seq<string>)
    ensures |parts| >= 1
    ensures forall k :: 0 <= k < |parts| ==> sep !in parts[k]
    decreases |s|
  {
    if s == [] then [""]
    else if s[0] == sep then [""] + Split(s[1..], sep)
    else
      var rest := Split(s[1..], sep);
      [[s[0]] + rest[0]] + rest[1..]
  }

  /** `sep.join(parts)` */
  function Join(parts: seq<string>, sep: char): string
    decreases |parts|
  {
    if parts == [] then ""
    else if |parts| == 1 then parts[0]
    else parts[0] + [sep] + Join(parts[1..], sep)
  }

  /** Splitting and joining on the same separator gives the string back. */
  lemma {:induction false} JoinSplit(s: string, sep: char)
    ensures Join(Split(s, sep), sep) == s
    decreases |s|
  {
    if s == [] {
    } else if s[0] == sep {
      JoinSplit(s[1..], sep);
      var rest := Split(s[1..], sep);
      assert Split(s, sep) == [""] + rest;
      assert ([""] + rest)[1..] == rest;
    } else {
      JoinSplit(s[1..], sep);
      var rest := Split(s[1..], sep);
      var parts := [[s[0]] + rest[0]] + rest[1..];
      assert Split(s, sep) == parts;
      if |rest| == 1 {
        assert Join(parts, sep) == [s[0]] + rest[0];
      } else {
        assert parts[1..] == rest[1..];
        assert Join(rest, sep) == rest[0] + [sep] + Join(rest[1..], sep);
      }
    }
  }

  /** Drops every leading `c`: the left half of `s.strip(c)`. */
  function TrimStart(s: string, c: char): (r: string)
    ensures |r| <= |s| && r == s[|s| - |r|..]
    ensures r == [] || r[0] != c
    decreases |s|
  {
    if s != [] && s[0] == c then TrimStart(s[1..], c) else s
  }

  /** Drops every trailing `c`: the right half of `s.strip(c)`. */
  function TrimEnd(s: string, c: char): (r: string)
    ensures |r| <= |s| && r == s[..|r|]
    ensures r == [] || r[|r| - 1] != c
    decreases |s|
  {
    if s != [] && s[|s| - 1] == c then TrimEnd(s[..|s| - 1], c) else s
  }

  /** `s.strip(c)` for a single character `c`. */
  function Strip(s: string, c: char): (r: string)
    ensures r == [] || (r[0] != c && r[|r| - 1] != c)
  {
    var t := TrimStart(s, c);
    var r := TrimEnd(t, c);
    assert r != [] ==> r[0] == t[0];
    r
  }

  /** `s.replace(pat, "")`: removes every non-overlapping occurrence of `pat`, scanning left to right. */
  function RemoveAll(s: string, pat: string): (r: string)
    requires pat != ""
    ensures |r| <= |s|
    decreases |s|
  {
    if s == [] then []
    else if StartsWith(s, pat) then RemoveAll(s[|pat|..], pat)
    else [s[0]] + RemoveAll(s[1..], pat)
  }

  /**
   * When the first character of `pat` occurs nowhere else in it (true of `"_schema.json"`),
   * removing `pat` from `t + pat` gives `t` back, provided `t` does not itself contain `pat`.
   */
  lemma {:induction false} RemoveAllSuffix(t: string, pat: string)
    requires pat != ""
    requires forall k :: 0 < k < |pat| ==> pat[k] != pat[0]
    requires !Contains(t, pat)
    ensures RemoveAll(t + pat, pat) == t
    decreases |t|
  {
    var s := t + pat;
    if t == [] {
      assert s == pat && StartsWith(s, pat);
      assert s[|pat|..] == [];
    } else {
      assert !StartsWith(s, pat) by {
        if |t| >= |pat| {
          assert s[..|pat|] == t[..|pat|];
        } else {
          assert s[|t|] == pat[0];
        }
      }
      assert s[1..] == t[1..] + pat;
      RemoveAllSuffix(t[1..], pat);
      assert [t[0]] + t[1..] == t;
    }
  }

  /**
   * The ASCII characters Python's `str.split()` splits on: space, `\t`, `\n`, `\v`, `\f`,
   * `\r`, and the separators `\x1c` to `\x1f`.
   */
  predicate IsSpace(c: char) {
    c == ' ' || c == '\t' || c == '\n' || c == '\r' || c == '\U{B}' || c == '\U{C}'
    || ('\U{1C}' <= c <= '\U{1F}')
  }

  predicate NoSpace(s: string) {
    forall i :: 0 <= i < |s| ==> !IsSpace(s[i])
  }

  /** Length of the longest prefix of `s` that holds no whitespace. */
  function WordLength(s: string): (n: nat)
    ensures n <= |s| && NoSpace(s[..n])
    ensures n == |s| || IsSpace(s[n])
    decreases |s|
  {
    if s == [] || IsSpace(s[0]) then 0
    else
      var n := 1 + WordLength(s[1..]);
      assert s[..n] == [s[0]] + s[1..][..n - 1];
      n
  }

  /** `s.split()`: the maximal runs of non-whitespace characters, in order. */
  function Words(s: string): (ws: seq<string>)
    ensures forall k :: 0 <= k < |ws| ==> ws[k] != "" && NoSpace(ws[k])
    decreases |s|
  {
    if s == [] then []
    else if IsSpace(s[0]) then Words(s[1..])
    else
      var n := WordLength(s);
      [s[..n]] + Words(s[n..])
  }

  /** `" ".join(ws)` */
  function JoinWords(ws: seq<string>): string
    decreases |ws|
  {
    if ws == [] then ""
    else if |ws| == 1 then ws[0]
    else ws[0] + " " + JoinWords(ws[1..])
  }

  lemma {:induction false} WordLengthOfWord(w: string, rest: string)
    requires NoSpace(w)
    requires rest == [] || IsSpace(rest[0])
    ensures WordLength(w + rest) == |w|
    decreases |w|
  {
    if w != [] {
      assert (w + rest)[1..] == w[1..] + rest;
      WordLengthOfWord(w[1..], rest);
    }
  }

  /** Joining non-empty, space-free words with single spaces and splitting again gives the words back. */
  lemma {:induction false} WordsJoinWords(ws: seq<string>)
    requires forall k :: 0 <= k < |ws| ==> ws[k] != "" && NoSpace(ws[k])
    ensures Words(JoinWords(ws)) == ws
    decreases |ws|
  {
    if ws == [] {
    } else if |ws| == 1 {
      var w := ws[0];
      WordLengthOfWord(w, "");
      assert w + "" == w;
      assert w[|w|..] == [];
      assert Words(w) == [w[..|w|]] + Words([]);
    } else {
      var w := ws[0];
      var rest := " " + JoinWords(ws[1..]);
      var s := w + rest;
      assert JoinWords(ws) == s;
      WordLengthOfWord(w, rest);
      assert s[..|w|] == w;
      assert s[|w|..] == rest;
      assert Words(rest) == Words(JoinWords(ws[1..])) by {
        assert rest[1..] == JoinWords(ws[1..]);
      }
      WordsJoinWords(ws[1..]);
      assert [w] + ws[1..] == ws;
    }
  }
}
