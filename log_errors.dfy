/**
 * `parse_azure_pipeline_log`: the error entries of one pipeline log, ADO errors
 * first, then the matches of each Python error pattern in order, stable-sorted
 * by timestamp with a missing timestamp sorting as `datetime.max`.
 */
module LogErrors {
  import opened Base
  import opened Text
  import opened LogPatterns
  import opened Timestamps

  /** One parsed error: `{"timestamp": ..., "message": ..., "error_type": ...}`. */
  datatype ErrorEntry = ErrorEntry(timestamp: Option<DateTime>, message: string, errorType: string)

  const AdoErrorType: string := "ADO Error"

  /** The Python error patterns in dict order: (error type, the literal the pattern starts with). */
  const PythonErrorPatterns: seq<(string, string)> := [
    ("Traceback", "Traceback (most recent call last):"),
    ("ValueError", "ValueError:"),
    ("IndexError", "IndexError:"),
    ("AssertionError", "AssertionError:"),
    ("AttributeError", "AttributeError:"),
    ("ImportError", "ImportError:"),
    ("KeyError", "KeyError:"),
    ("NameError", "NameError:"),
    ("MemoryError", "MemoryError:"),
    ("TypeError", "TypeError:")
  ]

  // ---------------------------------------------------------------------------
  // The entries, before sorting

  /** The positions of an ADO match: timestamp, marker, message. */
  predicate AdoShaped(s: string, h: Hit) {
    h.start + 10 <= h.bodyStart <= h.end <= |s|
  }

  predicate AllAdoShaped(s: string, hits: seq<Hit>) {
    forall k :: 0 <= k < |hits| ==> AdoShaped(s, hits[k])
  }

  /** The ADO matches of `s`, left to right. */
  function AdoMatches(s: string): (hits: seq<Hit>)
    ensures AllAdoShaped(s, hits)
  {
    AdoMatchesShaped(s);
    FindIter(s, AdoError, 0)
  }

  lemma AdoMatchesShaped(s: string)
    ensures AllAdoShaped(s, FindIter(s, AdoError, 0))
  {
    var hits := FindIter(s, AdoError, 0);
    forall k | 0 <= k < |hits| ensures AdoShaped(s, hits[k]) {
      FindIterSound(s, AdoError, 0, k);
      MatchAtShape(s, AdoError, hits[k].start, hits[k]);
    }
  }

  /** The entry an ADO match gives: none when its timestamp does not parse, otherwise the
      stripped message with the parsed time. */
  function AdoEntry(s: string, h: Hit): seq<ErrorEntry>
    requires AdoShaped(s, h)
  {
    match ParseTimestamp(s[h.start..h.bodyStart - 10])
    case None => []
    case Some(t) => [ErrorEntry(Some(t), Strip(s[h.bodyStart..h.end]), AdoErrorType)]
  }

  /** The entries of the first `n` ADO matches. */
  function AdoEntries(s: string, hits: seq<Hit>, n: nat): seq<ErrorEntry>
    requires n <= |hits| && AllAdoShaped(s, hits)
  {
    if n == 0 then [] else AdoEntries(s, hits, n - 1) + AdoEntry(s, hits[n - 1])
  }

  /** The time of the leftmost timestamp lying wholly inside `s[..n]`; `None` when there is
      none or it does not parse. */
  function StampBefore(s: string, n: nat): Option<DateTime>
    requires n <= |s|
  {
    match FirstStamp(s[..n], 0)
    case None => None
    case Some(found) => ParseTimestamp(s[..n][found.0..found.1])
  }

  /** The entry a keyword match gives: the whole match, stripped, kept even without a time. */
  function KeywordEntry(s: string, errorType: string, h: Hit): ErrorEntry
    requires h.start <= h.end <= |s|
  {
    ErrorEntry(StampBefore(s, h.start), Strip(s[h.start..h.end]), errorType)
  }

  predicate Within(s: string, hits: seq<Hit>) {
    forall k :: 0 <= k < |hits| ==> hits[k].start <= hits[k].end <= |s|
  }

  /** The entries of the first `n` keyword matches. */
  function KeywordEntries(s: string, errorType: string, hits: seq<Hit>, n: nat): seq<ErrorEntry>
    requires n <= |hits| && Within(s, hits)
  {
    if n == 0 then [] else KeywordEntries(s, errorType, hits, n - 1) + [KeywordEntry(s, errorType, hits[n - 1])]
  }

  /** The matches of one keyword pattern in `s`, left to right. */
  function KeywordHits(s: string, literal: string): (hits: seq<Hit>)
    ensures Within(s, hits)
  {
    FindIter(s, Keyword(literal), 0)
  }

  /** The entries of the first `n` patterns, pattern by pattern. */
  function PatternEntries(s: string, patterns: seq<(string, string)>, n: nat): seq<ErrorEntry>
    requires n <= |patterns|
  {
    if n == 0 then []
    else
      var hits := KeywordHits(s, patterns[n - 1].1);
      PatternEntries(s, patterns, n - 1) + KeywordEntries(s, patterns[n - 1].0, hits, |hits|)
  }

  lemma PatternEntriesStep(s: string, patterns: seq<(string, string)>, n: nat, found: seq<ErrorEntry>)
    requires n < |patterns|
    requires found == KeywordEntries(s, patterns[n].0, KeywordHits(s, patterns[n].1), |KeywordHits(s, patterns[n].1)|)
    ensures PatternEntries(s, patterns, n + 1) == PatternEntries(s, patterns, n) + found
  {
  }

  /** All entries in the order they are appended. */
  function Unsorted(s: string): seq<ErrorEntry> {
    var ado := AdoMatches(s);
    AdoEntries(s, ado, |ado|) + PatternEntries(s, PythonErrorPatterns, |PythonErrorPatterns|)
  }

  /** The list `parse_azure_pipeline_log` returns. */
  function ParsedErrors(s: string): seq<ErrorEntry> {
    StableSort(Unsorted(s))
  }

  // ---------------------------------------------------------------------------
  // What one match contributes

  /** An ADO match lies within the log, gives at most one entry, and its message holds no
      date prefix and stops at the next one or at the end of the log. */
  lemma AdoMatchMessage(s: string, h: Hit)
    requires MatchAt(s, AdoError, h.start) == Some(h)
    ensures AdoShaped(s, h) && |AdoEntry(s, h)| <= 1
    ensures forall k :: h.bodyStart <= k < h.end ==> !DatePrefixAt(s, k)
    ensures h.end == |s| || DatePrefixAt(s, h.end)
  {
    MatchAtShape(s, AdoError, h.start, h);
    MessageEndStops(s, h.bodyStart);
  }

  /** The text before an ADO match's marker is one whole timestamp. */
  lemma AdoStamp(s: string, h: Hit)
    requires MatchAt(s, AdoError, h.start) == Some(h)
    ensures AdoShaped(s, h) && StampEnd(s[h.start..h.bodyStart - 10], 0) == Some(h.bodyStart - 10 - h.start)
  {
    MatchAtShape(s, AdoError, h.start, h);
    StampEndSlice(s, h.start, h.bodyStart - 10);
  }

  /** An ADO match whose timestamp does not parse gives no entry. */
  lemma AdoEntryNone(s: string, h: Hit)
    requires AdoShaped(s, h) && ParseTimestamp(s[h.start..h.bodyStart - 10]) == None
    ensures AdoEntry(s, h) == []
  {
  }

  /** A timestamp with fewer than six fractional digits does not parse. */
  lemma AdoStampShort(s: string, h: Hit)
    requires AdoShaped(s, h) && StampEnd(s[h.start..h.bodyStart - 10], 0) == Some(h.bodyStart - 10 - h.start)
    requires h.bodyStart - 10 - h.start < 27
    ensures ParseTimestamp(s[h.start..h.bodyStart - 10]) == None
  {
    ShortFractionFails(s[h.start..h.bodyStart - 10]);
  }

  /** An ADO match whose timestamp has fewer than six fractional digits gives no entry. */
  lemma AdoShortFraction(s: string, h: Hit)
    requires AdoShaped(s, h) && StampEnd(s[h.start..h.bodyStart - 10], 0) == Some(h.bodyStart - 10 - h.start)
    requires h.bodyStart - 10 - h.start < 27
    ensures AdoEntry(s, h) == []
  {
    AdoStampShort(s, h);
    AdoEntryNone(s, h);
  }

  /** An ADO match whose timestamp parses gives one entry carrying it. */
  lemma AdoEntryParsed(s: string, h: Hit, d: DateTime)
    requires AdoShaped(s, h) && ParseTimestamp(s[h.start..h.bodyStart - 10]) == Some(d)
    ensures AdoEntry(s, h) == [ErrorEntry(Some(d), Strip(s[h.bodyStart..h.end]), AdoErrorType)]
  {
  }

  /** An ADO match whose timestamp has six or more fractional digits gives one entry exactly
      when the fields (the fraction cut to microseconds) form a valid date and time: type
      "ADO Error", that time, and the stripped message. */
  lemma AdoLongFraction(s: string, h: Hit)
    requires AdoShaped(s, h) && StampEnd(s[h.start..h.bodyStart - 10], 0) == Some(h.bodyStart - 10 - h.start)
    requires h.bodyStart - 10 - h.start >= 27
    ensures DigitsAt(s[h.start..h.bodyStart - 10], 20, 6)
    ensures var d := StampFields(s[h.start..h.bodyStart - 10], 0);
            AdoEntry(s, h) == if ValidDateTime(d) then [ErrorEntry(Some(d), Strip(s[h.bodyStart..h.end]), AdoErrorType)] else []
  {
    var raw := s[h.start..h.bodyStart - 10];
    LongFractionParses(raw);
    if ValidDateTime(StampFields(raw, 0)) {
      AdoEntryParsed(s, h, StampFields(raw, 0));
    } else {
      AdoEntryNone(s, h);
    }
  }

  /** A literal that `strip` cannot eat into: non-empty, no whitespace at either end. */
  predicate SolidLiteral(literal: string) {
    |literal| > 0 && !IsSpace(literal[0]) && !IsSpace(literal[|literal| - 1])
  }

  lemma PythonLiteralsSolid()
    ensures forall k :: 0 <= k < |PythonErrorPatterns| ==> SolidLiteral(PythonErrorPatterns[k].1)
  {
  }

  /** A keyword entry has the pattern's error type and a message that starts with the keyword
      and holds no date prefix after it. */
  lemma KeywordEntryOfMatch(s: string, errorType: string, literal: string, h: Hit)
    requires SolidLiteral(literal) && MatchAt(s, Keyword(literal), h.start) == Some(h)
    ensures KeywordEntry(s, errorType, h).errorType == errorType
    ensures KeywordEntry(s, errorType, h).timestamp == StampBefore(s, h.start)
    ensures var m := KeywordEntry(s, errorType, h).message; |literal| <= |m| && m[..|literal|] == literal
    ensures forall k :: h.start + |literal| <= k < h.end ==> !DatePrefixAt(s, k)
  {
    MatchAtShape(s, Keyword(literal), h.start, h);
    MessageEndStops(s, h.bodyStart);
    var t := s[h.start..h.end];
    var n := |literal|;
    assert t[..n] == literal;
    var m := Strip(t);
    var a, b := StripCut(t);
    assert t[0] == literal[0];
    assert t[n - 1] == literal[n - 1];
    assert a == 0;
    assert b >= n;
    assert m[..n] == t[..n];
  }

  /** The time a keyword entry carries is that of the leftmost timestamp lying wholly before
      the match, when there is one. */
  lemma StampBeforeIsLeftmost(s: string, n: nat, i: nat, e: nat)
    requires n <= |s| && StampEnd(s, i) == Some(e) && e <= n
    requires forall j: nat :: j < i && StampEnd(s, j).Some? ==> StampEnd(s, j).value > n
    ensures StampBefore(s, n) == ParseTimestamp(s[i..e])
  {
    var t := s[..n];
    StampEndPrefix(s, n, i, e);
    var found := FirstStamp(t, 0);
    FirstStampLeftmost(t, 0);
    assert found.Some?;
    var (i', e') := found.value;
    StampEndPrefix(s, n, i', e');
    assert i' == i;
    assert t[i..e] == s[i..e];
  }

  /** Without a timestamp lying wholly before the match, a keyword entry has no time. */
  lemma StampBeforeNone(s: string, n: nat)
    requires n <= |s|
    requires forall j: nat :: StampEnd(s, j).Some? ==> StampEnd(s, j).value > n
    ensures StampBefore(s, n) == None
  {
    var t := s[..n];
    var found := FirstStamp(t, 0);
    FirstStampLeftmost(t, 0);
    if found.Some? {
      StampEndPrefix(s, n, found.value.0, found.value.1);
      assert false;
    }
  }

  /** Every entry the parser collects carries a valid time or none. */
  lemma UnsortedValidTimes(s: string)
    ensures ValidTimes(Unsorted(s))
  {
    var ado := AdoMatches(s);
    AdoValidTimes(s, ado, |ado|);
    PatternValidTimes(s, PythonErrorPatterns, |PythonErrorPatterns|);
    ValidTimesConcat(AdoEntries(s, ado, |ado|), PatternEntries(s, PythonErrorPatterns, |PythonErrorPatterns|));
  }

  lemma ValidTimesConcat(a: seq<ErrorEntry>, b: seq<ErrorEntry>)
    requires ValidTimes(a) && ValidTimes(b)
    ensures ValidTimes(a + b)
  {
    forall i | 0 <= i < |a + b| && (a + b)[i].timestamp.Some? ensures ValidDateTime((a + b)[i].timestamp.value) {
      if i >= |a| { assert (a + b)[i] == b[i - |a|]; }
    }
  }

  lemma {:induction false} AdoValidTimes(s: string, hits: seq<Hit>, n: nat)
    requires n <= |hits| && AllAdoShaped(s, hits)
    ensures ValidTimes(AdoEntries(s, hits, n))
  {
    if n > 0 {
      AdoValidTimes(s, hits, n - 1);
      AdoEntriesStep(s, hits, n);
    }
  }

  lemma AdoEntriesStep(s: string, hits: seq<Hit>, n: nat)
    requires 0 < n <= |hits| && AllAdoShaped(s, hits) && ValidTimes(AdoEntries(s, hits, n - 1))
    ensures ValidTimes(AdoEntries(s, hits, n))
  {
    AdoEntryValid(s, hits[n - 1]);
    ValidTimesConcat(AdoEntries(s, hits, n - 1), AdoEntry(s, hits[n - 1]));
  }

  lemma AdoEntryValid(s: string, h: Hit)
    requires AdoShaped(s, h)
    ensures ValidTimes(AdoEntry(s, h))
  {
  }

  lemma {:induction false} KeywordValidTimes(s: string, errorType: string, hits: seq<Hit>, n: nat)
    requires n <= |hits| && Within(s, hits)
    ensures ValidTimes(KeywordEntries(s, errorType, hits, n))
  {
    if n > 0 {
      KeywordValidTimes(s, errorType, hits, n - 1);
      KeywordEntriesStep(s, errorType, hits, n);
    }
  }

  lemma KeywordEntriesStep(s: string, errorType: string, hits: seq<Hit>, n: nat)
    requires 0 < n <= |hits| && Within(s, hits) && ValidTimes(KeywordEntries(s, errorType, hits, n - 1))
    ensures ValidTimes(KeywordEntries(s, errorType, hits, n))
  {
    KeywordEntryValid(s, errorType, hits[n - 1]);
    ValidTimesConcat(KeywordEntries(s, errorType, hits, n - 1), [KeywordEntry(s, errorType, hits[n - 1])]);
  }

  lemma KeywordEntryValid(s: string, errorType: string, h: Hit)
    requires h.start <= h.end <= |s|
    ensures ValidTimes([KeywordEntry(s, errorType, h)])
  {
    StampBeforeValid(s, h.start);
  }

  lemma StampBeforeValid(s: string, n: nat)
    requires n <= |s|
    ensures StampBefore(s, n).Some? ==> ValidDateTime(StampBefore(s, n).value)
  {
  }

  lemma {:induction false} PatternValidTimes(s: string, patterns: seq<(string, string)>, n: nat)
    requires n <= |patterns|
    ensures ValidTimes(PatternEntries(s, patterns, n))
  {
    if n > 0 {
      var hits := KeywordHits(s, patterns[n - 1].1);
      PatternValidTimes(s, patterns, n - 1);
      KeywordValidTimes(s, patterns[n - 1].0, hits, |hits|);
      ValidTimesConcat(PatternEntries(s, patterns, n - 1), KeywordEntries(s, patterns[n - 1].0, hits, |hits|));
    }
  }

  // ---------------------------------------------------------------------------
  // Sorting: `errors.sort(key=...)`, a stable sort

  /** The sort key: the timestamp, or `datetime.max` for none. */
  function Key(e: ErrorEntry): DateTime {
    e.timestamp.GetOr(MaxDateTime)
  }

  predicate SortedByKey(s: seq<ErrorEntry>) {
    forall i, j :: 0 <= i < j < |s| ==> NotAfter(Key(s[i]), Key(s[j]))
  }

  /** Put `x` before the first element whose key is not smaller than its own. */
  function Insert(x: ErrorEntry, t: seq<ErrorEntry>): (r: seq<ErrorEntry>)
    ensures |r| == |t| + 1
  {
    if t == [] || NotAfter(Key(x), Key(t[0])) then [x] + t
    else [t[0]] + Insert(x, t[1..])
  }

  function StableSort(s: seq<ErrorEntry>): (r: seq<ErrorEntry>)
    ensures |r| == |s|
  {
    if s == [] then [] else Insert(s[0], StableSort(s[1..]))
  }

  lemma {:induction false} InsertSorted(x: ErrorEntry, t: seq<ErrorEntry>)
    requires SortedByKey(t)
    ensures SortedByKey(Insert(x, t))
  {
    if t != [] && !NotAfter(Key(x), Key(t[0])) {
      var r := Insert(x, t);
      var r1 := Insert(x, t[1..]);
      assert r == [t[0]] + r1;
      InsertSorted(x, t[1..]);
      NotAfterTotal(Key(x), Key(t[0]));
      assert forall i :: 0 <= i < |t[1..]| ==> NotAfter(Key(t[0]), Key(t[1..][i])) by {
        forall i | 0 <= i < |t[1..]| ensures NotAfter(Key(t[0]), Key(t[1..][i])) {
          assert t[1..][i] == t[i + 1];
        }
      }
      InsertBounded(x, t[1..], Key(t[0]));
      forall i, j | 0 <= i < j < |r| ensures NotAfter(Key(r[i]), Key(r[j])) {
        assert r[j] == r1[j - 1];
        if i > 0 {
          assert r[i] == r1[i - 1];
        }
      }
    } else if t != [] {
      var r := [x] + t;
      forall i, j | 0 <= i < j < |r| ensures NotAfter(Key(r[i]), Key(r[j])) {
        if i == 0 && j > 1 {
          NotAfterTransitive(Key(x), Key(t[0]), Key(t[j - 1]));
        }
      }
    }
  }

  /** Inserting an entry keeps a lower bound shared by the entry and every element. */
  lemma {:induction false} InsertBounded(x: ErrorEntry, t: seq<ErrorEntry>, b: DateTime)
    requires NotAfter(b, Key(x)) && forall i :: 0 <= i < |t| ==> NotAfter(b, Key(t[i]))
    ensures forall i :: 0 <= i < |Insert(x, t)| ==> NotAfter(b, Key(Insert(x, t)[i]))
  {
    if t != [] && !NotAfter(Key(x), Key(t[0])) {
      var r := Insert(x, t);
      var r1 := Insert(x, t[1..]);
      assert r == [t[0]] + r1;
      InsertBounded(x, t[1..], b);
      forall i | 1 <= i < |r| ensures NotAfter(b, Key(r[i])) {
        assert r[i] == r1[i - 1];
      }
    }
  }

  lemma {:induction false} InsertMembers(x: ErrorEntry, t: seq<ErrorEntry>)
    ensures multiset(Insert(x, t)) == multiset(t) + multiset{x}
  {
    if t != [] && !NotAfter(Key(x), Key(t[0])) {
      InsertMembers(x, t[1..]);
      assert t == [t[0]] + t[1..];
    }
  }

  /** The sorted list is ordered by key. */
  lemma {:induction false} StableSortSorted(s: seq<ErrorEntry>)
    ensures SortedByKey(StableSort(s))
  {
    if s != [] {
      StableSortSorted(s[1..]);
      InsertSorted(s[0], StableSort(s[1..]));
    }
  }

  /** The sorted list holds the same entries, each as often. */
  lemma {:induction false} StableSortPermutation(s: seq<ErrorEntry>)
    ensures multiset(StableSort(s)) == multiset(s)
  {
    if s != [] {
      StableSortPermutation(s[1..]);
      InsertMembers(s[0], StableSort(s[1..]));
      assert s == [s[0]] + s[1..];
    }
  }

  /** The entries whose key is `d`, in order. */
  function WithKey(s: seq<ErrorEntry>, d: DateTime): seq<ErrorEntry> {
    if s == [] then []
    else (if Key(s[0]) == d then [s[0]] else []) + WithKey(s[1..], d)
  }

  lemma {:induction false} InsertWithKey(x: ErrorEntry, t: seq<ErrorEntry>, d: DateTime)
    ensures WithKey(Insert(x, t), d) == (if Key(x) == d then [x] else []) + WithKey(t, d)
  {
    if t != [] && !NotAfter(Key(x), Key(t[0])) {
      InsertWithKey(x, t[1..], d);
      assert Insert(x, t)[1..] == Insert(x, t[1..]);
      NotAfterTotal(Key(x), Key(t[0]));
    } else {
      assert ([x] + t)[1..] == t;
    }
  }

  /** The sort is stable: entries with equal keys keep their relative order. */
  lemma {:induction false} StableSortStable(s: seq<ErrorEntry>, d: DateTime)
    ensures WithKey(StableSort(s), d) == WithKey(s, d)
  {
    if s != [] {
      StableSortStable(s[1..], d);
      InsertWithKey(s[0], StableSort(s[1..]), d);
    }
  }

  /** Every time an entry carries is a valid datetime. */
  predicate ValidTimes(s: seq<ErrorEntry>) {
    forall i :: 0 <= i < |s| && s[i].timestamp.Some? ==> ValidDateTime(s[i].timestamp.value)
  }

  /** After sorting, every entry without a time comes after every entry whose time is
      earlier than `datetime.max`. */
  lemma NoneLast(s: seq<ErrorEntry>, i: nat, j: nat)
    requires ValidTimes(s)
    requires i < |StableSort(s)| && j < |StableSort(s)|
    requires StableSort(s)[i].timestamp.None?
    requires StableSort(s)[j].timestamp.Some? && StableSort(s)[j].timestamp.value != MaxDateTime
    ensures j < i
  {
    var r := StableSort(s);
    StableSortSorted(s);
    StableSortPermutation(s);
    assert r[j] in multiset(s);
    var m :| 0 <= m < |s| && s[m] == r[j];
    NotAfterMax(r[j].timestamp.value);
    NotAfterTotal(MaxDateTime, r[j].timestamp.value);
  }

  /** In the parser's result every entry without a time comes after every entry whose time
      is earlier than `datetime.max`. */
  lemma ParsedNoneLast(s: string, i: nat, j: nat)
    requires i < |ParsedErrors(s)| && j < |ParsedErrors(s)|
    requires ParsedErrors(s)[i].timestamp.None?
    requires ParsedErrors(s)[j].timestamp.Some? && ParsedErrors(s)[j].timestamp.value != MaxDateTime
    ensures j < i
  {
    UnsortedValidTimes(s);
    NoneLast(Unsorted(s), i, j);
  }

  // ---------------------------------------------------------------------------
  // The parser

  /** The ADO loop: one entry per match whose timestamp parses. */
  method CollectAdoErrors(log: string, adoMatches: seq<Hit>) returns (errors: seq<ErrorEntry>)
    requires AllAdoShaped(log, adoMatches)
    ensures errors == AdoEntries(log, adoMatches, |adoMatches|)
  {
    errors := [];
    var i := 0;
    while i < |adoMatches|
      invariant 0 <= i <= |adoMatches|
      invariant errors == AdoEntries(log, adoMatches, i)
    {
      var entry := AdoMatchEntry(log, adoMatches[i]);
      errors := errors + entry;
      i := i + 1;
    }
  }

  /** The body of the ADO loop: the match's entry when its timestamp parses. */
  method AdoMatchEntry(log: string, m: Hit) returns (entry: seq<ErrorEntry>)
    requires AdoShaped(log, m)
    ensures entry == AdoEntry(log, m)
  {
    var timestamp := ParseTimestamp(log[m.start..m.bodyStart - 10]);
    if timestamp.Some? {
      return [ErrorEntry(timestamp, Strip(log[m.bodyStart..m.end]), AdoErrorType)];
    }
    return [];
  }

  /** The loop over one pattern's matches: one entry per match, with the time of the
      leftmost timestamp before it when that parses. */
  method CollectKeywordErrors(log: string, errorType: string, matches: seq<Hit>) returns (errors: seq<ErrorEntry>)
    requires Within(log, matches)
    ensures errors == KeywordEntries(log, errorType, matches, |matches|)
  {
    errors := [];
    var k := 0;
    while k < |matches|
      invariant 0 <= k <= |matches|
      invariant errors == KeywordEntries(log, errorType, matches, k)
    {
      errors := AddKeywordEntry(log, errorType, matches, k, errors);
      k := k + 1;
    }
  }

  /** The body of a pattern's loop: the `k`-th match, stripped, with the time of the leftmost
      timestamp before it when that parses, appended to the entries so far. */
  method AddKeywordEntry(log: string, errorType: string, matches: seq<Hit>, k: nat, errors: seq<ErrorEntry>)
    returns (extended: seq<ErrorEntry>)
    requires k < |matches| && Within(log, matches) && errors == KeywordEntries(log, errorType, matches, k)
    ensures extended == KeywordEntries(log, errorType, matches, k + 1)
  {
    var m := matches[k];
    var timestamp := None;
    var found := FirstStamp(log[..m.start], 0);
    if found.Some? {
      timestamp := ParseTimestamp(log[..m.start][found.value.0..found.value.1]);
    }
    return errors + [ErrorEntry(timestamp, Strip(log[m.start..m.end]), errorType)];
  }

  /** The loop over the patterns, in order. */
  method CollectPatternErrors(log: string, patterns: seq<(string, string)>) returns (errors: seq<ErrorEntry>)
    ensures errors == PatternEntries(log, patterns, |patterns|)
  {
    errors := [];
    var p := 0;
    while p < |patterns|
      invariant 0 <= p <= |patterns|
      invariant errors == PatternEntries(log, patterns, p)
    {
      var (errorType, literal) := patterns[p];
      var matches := KeywordHits(log, literal);
      var found := CollectKeywordErrors(log, errorType, matches);
      PatternEntriesStep(log, patterns, p, found);
      errors := errors + found;
      p := p + 1;
    }
  }

  /** `parse_azure_pipeline_log(log)`: collect the ADO entries, then the entries of each
      Python pattern in order, then sort them stably by time. */
  method ParseAzurePipelineLog(log: string) returns (errors: seq<ErrorEntry>)
    ensures errors == ParsedErrors(log)
    ensures SortedByKey(errors)
    ensures multiset(errors) == multiset(Unsorted(log))
  {
    var adoMatches := AdoMatches(log);
    var adoErrors := CollectAdoErrors(log, adoMatches);
    var patternErrors := CollectPatternErrors(log, PythonErrorPatterns);
    errors := adoErrors + patternErrors;
    StableSortSorted(errors);
    StableSortPermutation(errors);
    errors := StableSort(errors);
  }
}
