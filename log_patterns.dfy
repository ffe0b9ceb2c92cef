/**
 * The fixed regular expressions of the log parser, written out as scanners.
 *
 *   timestamp   \d{4}-\d{2}-\d{2}T\d{2}:\d{2}:\d{2}\.\d+Z
 *   ADO error   <timestamp> ##\[error\](.*?)(?=\d{4}-\d{2}-\d{2}T|\Z)
 *   keyword     <literal>.*?(?=\d{4}-\d{2}-\d{2}T|\Z)
 *
 * all with DOTALL, so a message may span lines. `\d` is an ASCII digit.
 * `FindIter` is `re.finditer`: leftmost matches, resuming at each match end.
 */
module LogPatterns {
  import opened Base
  import opened Text

  predicate IsDigit(c: char) {
    '0' <= c <= '9'
  }

  /** `n` digits start at `i`. */
  predicate DigitsAt(s: string, i: int, n: nat)
    decreases n
  {
    0 <= i && i + n <= |s| && (n == 0 || (IsDigit(s[i + n - 1]) && DigitsAt(s, i, n - 1)))
  }

  /** `DigitsAt` says that every one of the `n` characters is a digit. */
  lemma {:induction false} DigitsAtAll(s: string, i: int, n: nat)
    ensures DigitsAt(s, i, n) <==> 0 <= i && i + n <= |s| && forall k :: i <= k < i + n ==> IsDigit(s[k])
    decreases n
  {
    if n > 0 {
      DigitsAtAll(s, i, n - 1);
    }
  }

  /** The lookahead `\d{4}-\d{2}-\d{2}T` holds at `i`. */
  predicate DatePrefixAt(s: string, i: int) {
    0 <= i && i + 11 <= |s| &&
    DigitsAt(s, i, 4) && s[i + 4] == '-' && DigitsAt(s, i + 5, 2) && s[i + 7] == '-' &&
    DigitsAt(s, i + 8, 2) && s[i + 10] == 'T'
  }

  /** Digits are read off the characters alone, wherever those stand. */
  lemma {:induction false} DigitsAtShift(s: string, i: nat, t: string, j: nat, n: nat)
    requires i + n <= |s| && j + n <= |t|
    requires forall k :: j <= k < j + n ==> t[k] == s[i + (k - j)]
    ensures DigitsAt(s, i, n) <==> DigitsAt(t, j, n)
    decreases n
  {
    if n > 0 {
      DigitsAtShift(s, i, t, j, n - 1);
    }
  }

  /** The fixed part `\d{4}-\d{2}-\d{2}T\d{2}:\d{2}:\d{2}\.` of a timestamp holds at `i`. */
  predicate StampHeadAt(s: string, i: int) {
    DatePrefixAt(s, i) && i + 20 <= |s| &&
    DigitsAt(s, i + 11, 2) && s[i + 13] == ':' && DigitsAt(s, i + 14, 2) && s[i + 16] == ':' &&
    DigitsAt(s, i + 17, 2) && s[i + 19] == '.'
  }

  /** The fixed part of a timestamp is read off its twenty characters alone. */
  lemma StampHeadShift(s: string, i: nat, t: string, j: nat)
    requires i + 20 <= |s| && j + 20 <= |t|
    requires forall k :: j <= k < j + 20 ==> t[k] == s[i + (k - j)]
    ensures StampHeadAt(s, i) <==> StampHeadAt(t, j)
  {
    DigitsAtShift(s, i, t, j, 4);
    DigitsAtShift(s, i + 5, t, j + 5, 2);
    DigitsAtShift(s, i + 8, t, j + 8, 2);
    DigitsAtShift(s, i + 11, t, j + 11, 2);
    DigitsAtShift(s, i + 14, t, j + 14, 2);
    DigitsAtShift(s, i + 17, t, j + 17, 2);
  }

  /** Length of the longest run of digits starting at `i`. */
  function DigitRun(s: string, i: nat): (n: nat)
    requires i <= |s|
    ensures DigitsAt(s, i, n)
    ensures i + n == |s| || !IsDigit(s[i + n])
    decreases |s| - i
  {
    if i < |s| && IsDigit(s[i]) then
      var r := DigitRun(s, i + 1);
      DigitsAtAll(s, i + 1, r);
      DigitsAtAll(s, i, r + 1);
      1 + r
    else 0
  }

  /** A digit run that stops at a non-digit (or the end) is the longest one. */
  lemma {:induction false} DigitRunUnique(s: string, i: nat, n: nat)
    requires DigitsAt(s, i, n) && (i + n == |s| || !IsDigit(s[i + n]))
    ensures DigitRun(s, i) == n
    decreases n
  {
    if n > 0 {
      DigitsAtAll(s, i, n);
      DigitsAtAll(s, i + 1, n - 1);
      DigitRunUnique(s, i + 1, n - 1);
    }
  }

  /** Where a timestamp starting at `i` ends (just after its `Z`), if one does.
      `\d+` is greedy and `Z` is not a digit, so the fraction is the whole digit run. */
  function StampEnd(s: string, i: nat): (r: Option<nat>)
    ensures r.Some? ==> StampHeadAt(s, i) && i + 22 <= r.value <= |s| &&
                        DigitsAt(s, i + 20, r.value - i - 21) && s[r.value - 1] == 'Z'
  {
    if StampHeadAt(s, i) then
      var f := DigitRun(s, i + 20);
      if f >= 1 && i + 20 + f < |s| && s[i + 20 + f] == 'Z' then Some(i + 21 + f) else None
    else None
  }

  /** The timestamp pattern matches at `i` with fraction length `f` exactly when
      `StampEnd` reports the end `i + 21 + f`: no other way of matching exists. */
  lemma StampEndIff(s: string, i: nat, f: nat)
    ensures StampEnd(s, i) == Some(i + 21 + f) <==>
            StampHeadAt(s, i) && f >= 1 && DigitsAt(s, i + 20, f) && i + 20 + f < |s| && s[i + 20 + f] == 'Z'
  {
    if StampHeadAt(s, i) && f >= 1 && DigitsAt(s, i + 20, f) && i + 20 + f < |s| && s[i + 20 + f] == 'Z' {
      DigitRunUnique(s, i + 20, f);
    }
  }

  /** A timestamp found in the prefix `s[..n]` is the timestamp of `s` at the same
      position, and conversely any timestamp of `s` that ends by `n` is one of the prefix. */
  lemma StampEndPrefix(s: string, n: nat, i: nat, e: nat)
    requires n <= |s|
    ensures StampEnd(s[..n], i) == Some(e) <==> StampEnd(s, i) == Some(e) && e <= n
  {
    var t := s[..n];
    if StampEnd(t, i) == Some(e) {
      var f := e - i - 21;
      StampEndIff(t, i, f);
      StampHeadShift(s, i, t, i);
      DigitsAtShift(s, i + 20, t, i + 20, f);
      StampEndIff(s, i, f);
    }
    if StampEnd(s, i) == Some(e) && e <= n {
      var f := e - i - 21;
      StampEndIff(s, i, f);
      StampHeadShift(s, i, t, i);
      DigitsAtShift(s, i + 20, t, i + 20, f);
      StampEndIff(t, i, f);
    }
  }

  /** The timestamp at `i`, cut out of the text, is a timestamp on its own. */
  lemma StampEndSlice(s: string, i: nat, e: nat)
    requires StampEnd(s, i) == Some(e)
    ensures StampEnd(s[i..e], 0) == Some(e - i)
  {
    var t := s[i..e];
    var f := e - i - 21;
    StampEndIff(s, i, f);
    StampHeadShift(s, i, t, 0);
    DigitsAtShift(s, i + 20, t, 20, f);
    StampEndIff(t, 0, f);
  }

  /** The text every ADO error marker has after its timestamp. */
  const AdoMarker: string := " ##[error]"

  /** End of a lazy `.*?` started at `p` that stops before the first date prefix or at `\Z`. */
  function MessageEnd(s: string, p: nat): (q: nat)
    requires p <= |s|
    ensures p <= q <= |s|
    decreases |s| - p
  {
    if p == |s| || DatePrefixAt(s, p) then p else MessageEnd(s, p + 1)
  }

  /** The message stops at the first date prefix after its start, or at the end of the text. */
  lemma {:induction false} MessageEndStops(s: string, p: nat)
    requires p <= |s|
    ensures var q := MessageEnd(s, p);
            (q == |s| || DatePrefixAt(s, q)) && forall k :: p <= k < q ==> !DatePrefixAt(s, k)
    decreases |s| - p
  {
    if !(p == |s| || DatePrefixAt(s, p)) {
      MessageEndStops(s, p + 1);
    }
  }

  /** The two kinds of pattern: the ADO error line and a literal keyword. */
  datatype Pattern = AdoError | Keyword(literal: string)

  /** A match: it starts at `start`, its message text starts at `bodyStart`, and it ends at `end`. */
  datatype Hit = Hit(start: nat, bodyStart: nat, end: nat)

  /** `pattern.match(s, i)`: the match that starts at `i`, if any. */
  function MatchAt(s: string, pat: Pattern, i: nat): (r: Option<Hit>)
    ensures r.Some? ==> r.value.start == i < r.value.bodyStart <= r.value.end <= |s|
  {
    match pat
    case AdoError =>
      (match StampEnd(s, i)
       case Some(e) =>
         if OccursAt(s, AdoMarker, e) then Some(Hit(i, e + 10, MessageEnd(s, e + 10))) else None
       case None => None)
    case Keyword(kw) =>
      if |kw| > 0 && OccursAt(s, kw, i) then Some(Hit(i, i + |kw|, MessageEnd(s, i + |kw|))) else None
  }

  /** What a match is made of: an ADO match is a timestamp, the marker and a message; a
      keyword match is the keyword and a message; either message runs to the first date
      prefix after it or to the end of the text. */
  lemma MatchAtShape(s: string, pat: Pattern, i: nat, h: Hit)
    requires MatchAt(s, pat, i) == Some(h)
    ensures h.end == MessageEnd(s, h.bodyStart)
    ensures pat.AdoError? ==>
              i + 10 <= h.bodyStart && StampEnd(s, i) == Some(h.bodyStart - 10) &&
              OccursAt(s, AdoMarker, h.bodyStart - 10)
    ensures pat.Keyword? ==> |pat.literal| > 0 && OccursAt(s, pat.literal, i) && h.bodyStart == i + |pat.literal|
  {
  }

  /** The match each position of `s` starts, if any. */
  function Matches(s: string, pat: Pattern): (m: seq<Option<Hit>>)
    ensures |m| == |s| && ScanTable(m)
    ensures forall i :: 0 <= i < |s| ==> m[i] == MatchAt(s, pat, i)
  {
    seq(|s|, i requires 0 <= i < |s| => MatchAt(s, pat, i))
  }

  /** A table of matches: a match at index `i` starts there, is not empty and ends within the text. */
  predicate ScanTable(m: seq<Option<Hit>>) {
    forall i :: 0 <= i < |m| && m[i].Some? ==> m[i].value.start == i < m[i].value.end <= |m|
  }

  /** The finditer scan over a match table: take the match at `pos` and resume at its end,
      or move on one position. */
  function Scan(m: seq<Option<Hit>>, pos: nat): (hits: seq<Hit>)
    requires ScanTable(m)
    ensures forall k :: 0 <= k < |hits| ==> pos <= hits[k].start < hits[k].end <= |m|
    ensures forall k :: 0 <= k < |hits| - 1 ==> hits[k].end <= hits[k + 1].start
    decreases |m| - pos
  {
    if pos >= |m| then []
    else match m[pos]
      case Some(h) => [h] + Scan(m, h.end)
      case None => Scan(m, pos + 1)
  }

  /** Every reported match is the table's match at its start. */
  lemma {:induction false} ScanSound(m: seq<Option<Hit>>, pos: nat, k: nat)
    requires ScanTable(m) && k < |Scan(m, pos)|
    ensures m[Scan(m, pos)[k].start] == Some(Scan(m, pos)[k])
    decreases |m| - pos
  {
    if m[pos].Some? {
      var h := m[pos].value;
      var rest := Scan(m, h.end);
      assert Scan(m, pos) == [h] + rest;
      if k > 0 {
        ScanSound(m, h.end, k - 1);
        assert Scan(m, pos)[k] == rest[k - 1];
      }
    } else {
      ScanSound(m, pos + 1, k);
    }
  }

  /** Nothing is skipped: every position that starts a match lies inside a reported match,
      the `k`-th. */
  lemma {:induction false} ScanCovers(m: seq<Option<Hit>>, pos: nat, p: nat) returns (k: nat)
    requires ScanTable(m) && pos <= p < |m| && m[p].Some?
    ensures k < |Scan(m, pos)| && Scan(m, pos)[k].start <= p < Scan(m, pos)[k].end
    decreases |m| - pos
  {
    var hits := Scan(m, pos);
    if m[pos].Some? {
      var h := m[pos].value;
      var rest := Scan(m, h.end);
      assert hits == [h] + rest;
      if p >= h.end {
        var j := ScanCovers(m, h.end, p);
        assert hits[j + 1] == rest[j];
        k := j + 1;
      } else {
        assert hits[0] == h;
        k := 0;
      }
    } else {
      k := ScanCovers(m, pos + 1, p);
    }
  }

  /** `re.finditer(pattern, s)` from position `pos`: the matches, left to right. */
  function FindIter(s: string, pat: Pattern, pos: nat): (hits: seq<Hit>)
    ensures forall k :: 0 <= k < |hits| ==> pos <= hits[k].start < hits[k].end <= |s|
    ensures forall k :: 0 <= k < |hits| - 1 ==> hits[k].end <= hits[k + 1].start
  {
    Scan(Matches(s, pat), pos)
  }

  /** Every reported match is a match of the pattern at its start. */
  lemma FindIterSound(s: string, pat: Pattern, pos: nat, k: nat)
    requires k < |FindIter(s, pat, pos)|
    ensures MatchAt(s, pat, FindIter(s, pat, pos)[k].start) == Some(FindIter(s, pat, pos)[k])
  {
    ScanSound(Matches(s, pat), pos, k);
  }

  /** Nothing is skipped: every position where the pattern matches lies inside a reported
      match, the `k`-th. With the two properties `FindIter` ensures, this pins the matches
      down completely. */
  lemma FindIterCovers(s: string, pat: Pattern, pos: nat, p: nat) returns (k: nat)
    requires pos <= p && MatchAt(s, pat, p).Some?
    ensures k < |FindIter(s, pat, pos)|
    ensures FindIter(s, pat, pos)[k].start <= p < FindIter(s, pat, pos)[k].end
  {
    k := ScanCovers(Matches(s, pat), pos, p);
  }

  /** `re.search(timestamp, t[pos..])`: (start, end) of the leftmost timestamp from `pos`. */
  function FirstStamp(t: string, pos: nat): (r: Option<(nat, nat)>)
    ensures r.Some? ==> pos <= r.value.0 < r.value.1 <= |t|
    decreases |t| - pos
  {
    if pos >= |t| then None
    else match StampEnd(t, pos)
      case Some(e) => Some((pos, e))
      case None => FirstStamp(t, pos + 1)
  }

  /** `FirstStamp` finds a timestamp, and none starts earlier; when it finds none, there is none. */
  lemma {:induction false} FirstStampLeftmost(t: string, pos: nat)
    ensures var r := FirstStamp(t, pos);
            r.Some? ==> StampEnd(t, r.value.0) == Some(r.value.1) &&
                        forall j :: pos <= j < r.value.0 ==> StampEnd(t, j).None?
    ensures FirstStamp(t, pos).None? ==> forall j :: pos <= j ==> StampEnd(t, j).None?
    decreases |t| - pos
  {
    if pos >= |t| {
      assert forall j :: pos <= j ==> !StampHeadAt(t, j);
    } else if StampEnd(t, pos).None? {
      FirstStampLeftmost(t, pos + 1);
    }
  }
}
