/**
 * The few Go `strings` and `path/filepath` operations the core relies on,
 * written over `seq<char>` with the ASCII view of characters.
 */
module Strings {

  /** Index of the first occurrence of `c` in `s`, or `|s|` when there is none. */
  function IndexOf(s: string, c: char): (i: nat)
    ensures i <= |s|
    ensures i < |s| ==> s[i] == c
    ensures forall j :: 0 <= j < i ==> s[j] != c
  {
    if s == [] then 0
    else if s[0] == c then 0
    else 1 + IndexOf(s[1..], c)
  }

  /** Index of the last occurrence of `c` in `s`, or -1 when there is none. */
  function LastIndexOf(s: string, c: char): (i: int)
    ensures -1 <= i < |s|
    ensures i >= 0 ==> s[i] == c
    ensures forall j :: i < j < |s| ==> s[j] != c
  {
    if s == [] then -1
    else if s[|s| - 1] == c then |s| - 1
    else LastIndexOf(s[..|s| - 1], c)
  }

  /** Number of occurrences of `c` in `s`. */
  function Count(s: string, c: char): nat
  {
    if s == [] then 0 else (if s[0] == c then 1 else 0) + Count(s[1..], c)
  }

  lemma {:induction false} CountZero(s: string, c: char)
    ensures Count(s, c) == 0 <==> c !in s
  {
    if s != [] {
      CountZero(s[1..], c);
      assert s == [s[0]] + s[1..];
    }
  }

  /** Go's `strings.Split(s, sep)` for a one-character separator. */
  function Split(s: string, sep: char): (parts: seq<string>)
    ensures |parts| == Count(s, sep) + 1
    ensures forall k :: 0 <= k < |parts| ==> sep !in parts[k]
  {
    var i := IndexOf(s, sep);
    if i == |s| then
      CountZero(s, sep);
      [s]
    else
      CountSplit(s, sep, i);
      [s[..i]] + Split(s[i + 1..], sep)
  }

  lemma {:induction false} CountSplit(s: string, c: char, i: nat)
    requires i < |s| && s[i] == c && c !in s[..i]
    ensures Count(s, c) == 1 + Count(s[i + 1..], c)
  {
    if i > 0 {
      assert s[1..][..i - 1] == s[..i][1..];
      assert s[1..][i - 1 + 1..] == s[i + 1..];
      CountSplit(s[1..], c, i - 1);
    }
  }

  /** Joining the pieces of `Split` with the separator gives the input back. */
  function Join(parts: seq<string>, sep: char): string
  {
    if parts == [] then "" else if |parts| == 1 then parts[0] else parts[0] + [sep] + Join(parts[1..], sep)
  }

  lemma {:induction false} SplitJoin(s: string, sep: char)
    ensures Join(Split(s, sep), sep) == s
    decreases |s|
  {
    var i := IndexOf(s, sep);
    if i < |s| {
      var parts := Split(s[i + 1..], sep);
      SplitJoin(s[i + 1..], sep);
      assert Split(s, sep) == [s[..i]] + parts;
      assert ([s[..i]] + parts)[1..] == parts;
      assert Join(Split(s, sep), sep) == s[..i] + [sep] + Join(parts, sep);
      assert s == s[..i] + [sep] + s[i + 1..];
    }
  }

  /** `strings.Replace(s, [from], [to], -1)` for single characters. */
  function ReplaceAll(s: string, from: char, to: char): (r: string)
    ensures |r| == |s|
    ensures forall k :: 0 <= k < |s| ==> r[k] == (if s[k] == from then to else s[k])
  {
    if s == [] then "" else [if s[0] == from then to else s[0]] + ReplaceAll(s[1..], from, to)
  }

  /** `strings.ToUpper` restricted to ASCII letters. */
  function UpperChar(c: char): char
  {
    if 'a' <= c <= 'z' then (c as int - 32) as char else c
  }

  function ToUpper(s: string): string
  {
    seq(|s|, k requires 0 <= k < |s| => UpperChar(s[k]))
  }

  /**
   * Go's `unicode.IsSpace`: the characters with the Unicode White_Space
   * property, the Latin-1 ones and those beyond.
   */
  predicate IsSpace(c: char)
  {
    c == ' ' || c == '\t' || c == '\n' || c == '\r' || c == '\U{000B}' || c == '\U{000C}'
    || c == '\U{0085}' || c == '\U{00A0}'
    || c == '\U{1680}' || ('\U{2000}' <= c <= '\U{200A}')
    || c == '\U{2028}' || c == '\U{2029}' || c == '\U{202F}' || c == '\U{205F}' || c == '\U{3000}'
  }

  /** `strings.TrimLeft(s, cut)` / `strings.TrimRight(s, cut)` for a predicate on characters. */
  function TrimLeft(s: string, cut: char -> bool): (r: string)
    ensures |r| <= |s| && r == s[|s| - |r|..]
    ensures r == [] || !cut(r[0])
    ensures forall k :: 0 <= k < |s| - |r| ==> cut(s[k])
  {
    if s != [] && cut(s[0]) then TrimLeft(s[1..], cut) else s
  }

  function TrimRight(s: string, cut: char -> bool): (r: string)
    ensures |r| <= |s| && r == s[..|r|]
    ensures r == [] || !cut(r[|r| - 1])
    ensures forall k :: |r| <= k < |s| ==> cut(s[k])
  {
    if s != [] && cut(s[|s| - 1]) then TrimRight(s[..|s| - 1], cut) else s
  }

  /** `strings.TrimSpace`. */
  function TrimSpace(s: string): string
  {
    TrimRight(TrimLeft(s, IsSpace), IsSpace)
  }

  /** `strings.Trim(s, " ")`. */
  function TrimBlanks(s: string): string
  {
    TrimRight(TrimLeft(s, c => c == ' '), c => c == ' ')
  }

  /** A string trims to nothing exactly when every character of it is whitespace. */
  lemma TrimSpaceEmpty(s: string)
    ensures TrimSpace(s) == "" <==> forall k :: 0 <= k < |s| ==> IsSpace(s[k])
  {
    var l := TrimLeft(s, IsSpace);
    if l != [] {
      assert l[0] == s[|s| - |l|] && !IsSpace(l[0]);
      assert TrimRight(l, IsSpace) != "";
    }
  }

  // ---- file paths, with '/' as the only separator ----

  /** `filepath.Base` of a path without trailing separators. */
  function Base(p: string): (b: string)
    ensures forall k :: 0 <= k < |b| ==> b[k] != '/'
  {
    p[LastIndexOf(p, '/') + 1..]
  }

  /** `filepath.Dir` of a path without trailing separators or `..` segments. */
  function Dir(p: string): string
  {
    var i := LastIndexOf(p, '/');
    if i < 0 then "." else if i == 0 then "/" else p[..i]
  }

  lemma DirBase(p: string)
    requires '/' in p && p[0] != '/'
    ensures Dir(p) + "/" + Base(p) == p
  {
    var i := LastIndexOf(p, '/');
    assert p == p[..i] + "/" + p[i + 1..];
  }

  /** `filepath.Ext`: the suffix from the final '.' of the last element, or "". */
  function Ext(p: string): (e: string)
    ensures |e| <= |p|
    ensures e != "" ==> e[0] == '.'
  {
    var d := LastIndexOf(p, '.');
    var s := LastIndexOf(p, '/');
    if d > s then p[d..] else ""
  }

  /** The extension of a path is also the extension of its base name. */
  lemma ExtOfBase(p: string)
    ensures |Ext(p)| <= |Base(p)| && Base(p)[|Base(p)| - |Ext(p)|..] == Ext(p)
  {
    var d := LastIndexOf(p, '.');
    var s := LastIndexOf(p, '/');
    if d > s {
      assert Base(p) == p[s + 1..];
      assert Base(p)[|Base(p)| - |Ext(p)|..] == p[d..];
    }
  }

  /** `strings.TrimSuffix`. */
  function TrimSuffix(s: string, suffix: string): (r: string)
    ensures r + (if |suffix| <= |s| && s[|s| - |suffix|..] == suffix then suffix else "") == s
  {
    if |suffix| <= |s| && s[|s| - |suffix|..] == suffix then s[..|s| - |suffix|] else s
  }

  /** A string is a prefix of itself followed by anything. */
  lemma StartsWith(s: string, rest: string)
    ensures s <= s + rest
  {
    assert (s + rest)[..|s|] == s;
  }

  /** A suffix that is there is cut off whole. */
  lemma TrimPresentSuffix(s: string, suffix: string)
    requires |suffix| <= |s| && s[|s| - |suffix|..] == suffix
    ensures TrimSuffix(s, suffix) + suffix == s && |TrimSuffix(s, suffix)| == |s| - |suffix|
  {
  }
}
