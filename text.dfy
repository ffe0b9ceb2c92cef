/**
 * The Python `str` operations the core relies on: `in`, `endswith`, `strip`,
 * `split`, `replace`, and the `os.path` helpers `basename` and `splitext`.
 */
module Text {
  import opened Base

  /** `needle` occurs in `hay` starting at index `i`. */
  predicate OccursAt(hay: string, needle: string, i: int) {
    0 <= i && i + |needle| <= |hay| && hay[i..i + |needle|] == needle
  }

  /** `needle in hay` for two strings. */
  predicate Contains(hay: string, needle: string) {
    exists i | 0 <= i <= |hay| - |needle| :: OccursAt(hay, needle, i)
  }

  /** A string without the first character of a needle does not contain it. */
  lemma MissingFirstChar(hay: string, needle: string)
    requires |needle| > 0 && needle[0] !in hay
    ensures !Contains(hay, needle)
  {
    forall i | 0 <= i <= |hay| - |needle| ensures !OccursAt(hay, needle, i) {
      assert hay[i] in hay;
    }
  }

  /** `s.endswith(suffix)`. */
  predicate EndsWith(s: string, suffix: string) {
    |suffix| <= |s| && s[|s| - |suffix|..] == suffix
  }

  /** The code point ranges of the characters for which Python's `str.isspace()` holds. */
  const SpaceRanges: seq<(char, char)> := [
    ('\t', '\r'), ('\U{1c}', ' '), ('\U{85}', '\U{85}'), ('\U{a0}', '\U{a0}'),
    ('\U{1680}', '\U{1680}'), ('\U{2000}', '\U{200a}'), ('\U{2028}', '\U{2029}'),
    ('\U{202f}', '\U{202f}'), ('\U{205f}', '\U{205f}'), ('\U{3000}', '\U{3000}')
  ]

  /** `c` lies in one of the ranges from the `k`-th on. */
  predicate InRanges(c: char, k: nat)
    decreases |SpaceRanges| - k
  {
    k < |SpaceRanges| && (SpaceRanges[k].0 <= c <= SpaceRanges[k].1 || InRanges(c, k + 1))
  }

  /** `c.isspace()`. */
  predicate IsSpace(c: char) {
    InRanges(c, 0)
  }

  /** `s.lstrip()`. */
  function TrimStart(s: string): (r: string)
    ensures |r| <= |s|
  {
    if s != [] && IsSpace(s[0]) then TrimStart(s[1..]) else s
  }

  /** `s.rstrip()`. */
  function TrimEnd(s: string): (r: string)
    ensures |r| <= |s|
  {
    if s != [] && IsSpace(s[|s| - 1]) then TrimEnd(s[..|s| - 1]) else s
  }

  /** `s.strip()`: whitespace removed from both ends. */
  function Strip(s: string): (r: string)
    ensures |r| <= |s|
  {
    TrimEnd(TrimStart(s))
  }

  /** `lstrip` drops exactly the leading whitespace. */
  lemma {:induction false} TrimStartCut(s: string) returns (a: nat)
    ensures a <= |s| && TrimStart(s) == s[a..]
    ensures forall i :: 0 <= i < a ==> IsSpace(s[i])
    ensures a == |s| || !IsSpace(s[a])
  {
    if s != [] && IsSpace(s[0]) {
      var a' := TrimStartCut(s[1..]);
      a := a' + 1;
      assert s[1..][a'..] == s[a..];
    } else {
      a := 0;
    }
  }

  /** `rstrip` drops exactly the trailing whitespace. */
  lemma {:induction false} TrimEndCut(s: string) returns (b: nat)
    ensures b <= |s| && TrimEnd(s) == s[..b]
    ensures forall i :: b <= i < |s| ==> IsSpace(s[i])
    ensures b == 0 || !IsSpace(s[b - 1])
  {
    if s != [] && IsSpace(s[|s| - 1]) {
      b := TrimEndCut(s[..|s| - 1]);
      assert s[..|s| - 1][..b] == s[..b];
    } else {
      b := |s|;
    }
  }

  /** What `strip` keeps: the slice between the cut points `a` and `b`, with only whitespace
      outside it and none at either end of it. */
  lemma StripCut(s: string) returns (a: nat, b: nat)
    ensures a <= b <= |s| && Strip(s) == s[a..b]
    ensures forall i :: 0 <= i < a ==> IsSpace(s[i])
    ensures forall i :: b <= i < |s| ==> IsSpace(s[i])
    ensures Strip(s) == [] || (!IsSpace(Strip(s)[0]) && !IsSpace(Strip(s)[|Strip(s)| - 1]))
  {
    a := TrimStartCut(s);
    var t := s[a..];
    var b' := TrimEndCut(t);
    b := a + b';
    assert t[..b'] == s[a..b];
    assert forall i :: b <= i < |s| ==> s[i] == t[i - a];
  }

  /** Index of the first occurrence of `c`, if any. */
  function IndexOf(s: string, c: char): (r: Option<nat>)
    ensures r.Some? ==> r.value < |s| && s[r.value] == c && forall j :: 0 <= j < r.value ==> s[j] != c
    ensures r.None? ==> forall j :: 0 <= j < |s| ==> s[j] != c
  {
    if s == [] then None
    else if s[0] == c then Some(0)
    else match IndexOf(s[1..], c)
      case None => None
      case Some(k) => Some(k + 1)
  }

  /** Index of the last occurrence of `c`, if any (`str.rfind`). */
  function LastIndexOf(s: string, c: char): (r: Option<nat>)
    ensures r.Some? ==> r.value < |s| && s[r.value] == c
  {
    if s == [] then None
    else if s[|s| - 1] == c then Some(|s| - 1)
    else LastIndexOf(s[..|s| - 1], c)
  }

  /** No occurrence follows the one found, and `None` means there is none at all. */
  lemma {:induction false} LastIndexOfLast(s: string, c: char)
    ensures var r := LastIndexOf(s, c);
            (r.Some? ==> forall j :: r.value < j < |s| ==> s[j] != c) &&
            (r.None? ==> forall j :: 0 <= j < |s| ==> s[j] != c)
    decreases |s|
  {
    if s != [] && s[|s| - 1] != c {
      LastIndexOfLast(s[..|s| - 1], c);
    }
  }

  /** The last occurrence is the one no later character repeats. */
  lemma {:induction false} LastIndexOfIs(s: string, c: char, i: nat)
    requires i < |s| && s[i] == c && forall j :: i < j < |s| ==> s[j] != c
    ensures LastIndexOf(s, c) == Some(i)
    decreases |s|
  {
    if i < |s| - 1 {
      LastIndexOfIs(s[..|s| - 1], c, i);
    }
  }

  /** `s.split(sep)` for a one-character separator. */
  function Split(s: string, sep: char): (parts: seq<string>)
    ensures |parts| >= 1
    decreases |s|
  {
    match IndexOf(s, sep)
    case None => [s]
    case Some(i) => [s[..i]] + Split(s[i + 1..], sep)
  }

  /** `sep.join(parts)`, the inverse of `Split`. */
  function Join(parts: seq<string>, sep: char): string {
    if |parts| <= 1 then (if parts == [] then "" else parts[0])
    else parts[0] + [sep] + Join(parts[1..], sep)
  }

  /** Splitting and joining again gives back the original string. */
  lemma {:induction false} JoinSplit(s: string, sep: char)
    ensures Join(Split(s, sep), sep) == s
    ensures forall k :: 0 <= k < |Split(s, sep)| ==> forall j :: 0 <= j < |Split(s, sep)[k]| ==> Split(s, sep)[k][j] != sep
    decreases |s|
  {
    match IndexOf(s, sep)
    case None =>
    case Some(i) =>
      JoinSplit(s[i + 1..], sep);
      assert s == s[..i] + [sep] + s[i + 1..];
  }

  /** A string holding the separator splits into at least two parts, the first ending just before it. */
  lemma SplitAtFirst(s: string, sep: char, i: nat)
    requires i < |s| && s[i] == sep && forall j :: 0 <= j < i ==> s[j] != sep
    ensures |Split(s, sep)| >= 2 && Split(s, sep)[0] == s[..i]
    ensures Split(s, sep)[1..] == Split(s[i + 1..], sep)
  {
    assert IndexOf(s, sep) == Some(i);
  }

  /** A part free of the separator, then the separator: the part comes off first. */
  lemma SplitAfter(a: string, sep: char, b: string)
    requires sep !in a
    ensures Split(a + [sep] + b, sep) == [a] + Split(b, sep)
  {
    var s := a + [sep] + b;
    assert s[|a|] == sep;
    assert s[..|a|] == a && s[|a| + 1..] == b;
    SplitAtFirst(s, sep, |a|);
  }

  /** `s.replace(pat, rep)`: every non-overlapping occurrence, scanning left to right. */
  function ReplaceAll(s: string, pat: string, rep: string): (r: string)
    requires |pat| > 0
    decreases |s|
  {
    if |s| < |pat| then s
    else if s[..|pat|] == pat then rep + ReplaceAll(s[|pat|..], pat, rep)
    else [s[0]] + ReplaceAll(s[1..], pat, rep)
  }

  /** A string without the pattern is left unchanged by `replace`. */
  lemma {:induction false} ReplaceAbsent(s: string, pat: string, rep: string)
    requires |pat| > 0 && !Contains(s, pat)
    ensures ReplaceAll(s, pat, rep) == s
    decreases |s|
  {
    if |s| >= |pat| {
      assert !OccursAt(s, pat, 0);
      assert s[0..|pat|] == s[..|pat|];
      if Contains(s[1..], pat) {
        var i :| 0 <= i <= |s[1..]| - |pat| && OccursAt(s[1..], pat, i);
        assert s[1..][i..i + |pat|] == s[i + 1..i + 1 + |pat|];
        assert OccursAt(s, pat, i + 1);
      }
      ReplaceAbsent(s[1..], pat, rep);
    }
  }

  /** `os.path.basename`: everything after the last `/`. */
  function Basename(path: string): (b: string)
    ensures |b| <= |path|
  {
    match LastIndexOf(path, '/')
    case None => path
    case Some(i) => path[i + 1..]
  }

  /** The basename is the suffix after the last `/`: it starts at `d` and holds no `/`. */
  lemma BasenameCut(path: string) returns (d: nat)
    ensures d <= |path| && Basename(path) == path[d..]
    ensures forall j :: d <= j < |path| ==> path[j] != '/'
    ensures d == 0 || path[d - 1] == '/'
  {
    LastIndexOfLast(path, '/');
    match LastIndexOf(path, '/')
    case None => d := 0;
    case Some(i) => d := i + 1;
  }

  /** All characters are dots. */
  predicate AllDots(s: string) {
    forall j :: 0 <= j < |s| ==> s[j] == '.'
  }

  /** `os.path.splitext(name)[0]` for a name without `/`: drop the last extension,
      except when only dots precede the last dot (`.json` has no extension). */
  function StripExtension(name: string): (r: string)
    ensures |r| <= |name|
  {
    match LastIndexOf(name, '.')
    case None => name
    case Some(d) => if AllDots(name[..d]) then name else name[..d]
  }

  /** The stem a JSON leaf is keyed by: the basename minus its extension. */
  function Stem(path: string): string {
    StripExtension(Basename(path))
  }

  /** For a `.json` path whose basename has a non-dot character before the extension,
      the stem followed by ".json" is exactly the basename. */
  lemma StemOfJson(path: string)
    requires EndsWith(Basename(path), ".json") && !AllDots(Basename(path)[..|Basename(path)| - 5])
    ensures Stem(path) + ".json" == Basename(path)
  {
    var b := Basename(path);
    assert b[|b| - 5..] == ".json";
    assert b[|b| - 5] == '.';
    forall j | |b| - 5 < j < |b| ensures b[j] != '.' {
      assert b[j] == ".json"[j - (|b| - 5)];
    }
    LastIndexOfIs(b, '.', |b| - 5);
    assert b == b[..|b| - 5] + ".json";
  }
}
