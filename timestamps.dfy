/**
 * The time values of the log parser: `datetime`, `datetime.max`, and
 * `datetime.strptime(text, "%Y-%m-%dT%H:%M:%S.%f")` applied to a timestamp cut
 * to six fractional digits.
 */
module Timestamps {
  import opened Base
  import opened LogPatterns

  datatype DateTime = DateTime(year: int, month: int, day: int, hour: int, minute: int, second: int, microsecond: int)

  /** `datetime.max` */
  const MaxDateTime: DateTime := DateTime(9999, 12, 31, 23, 59, 59, 999999)

  /** `a <= b` on datetimes: field by field, most significant first. */
  predicate NotAfter(a: DateTime, b: DateTime) {
    if a.year != b.year then a.year < b.year
    else if a.month != b.month then a.month < b.month
    else if a.day != b.day then a.day < b.day
    else if a.hour != b.hour then a.hour < b.hour
    else if a.minute != b.minute then a.minute < b.minute
    else if a.second != b.second then a.second < b.second
    else a.microsecond <= b.microsecond
  }

  lemma NotAfterTotal(a: DateTime, b: DateTime)
    ensures NotAfter(a, b) || NotAfter(b, a)
    ensures NotAfter(a, b) && NotAfter(b, a) ==> a == b
  {
  }

  lemma NotAfterTransitive(a: DateTime, b: DateTime, c: DateTime)
    requires NotAfter(a, b) && NotAfter(b, c)
    ensures NotAfter(a, c)
  {
  }

  predicate IsLeap(y: int) {
    y % 4 == 0 && (y % 100 != 0 || y % 400 == 0)
  }

  function DaysInMonth(y: int, m: int): (n: int)
    requires 1 <= m <= 12
    ensures 28 <= n <= 31
  {
    if m == 2 then (if IsLeap(y) then 29 else 28)
    else if m == 4 || m == 6 || m == 9 || m == 11 then 30
    else 31
  }

  /** The values the `datetime` constructor accepts. */
  predicate ValidDateTime(d: DateTime) {
    1 <= d.year <= 9999 && 1 <= d.month <= 12 && 1 <= d.day <= DaysInMonth(d.year, d.month) &&
    0 <= d.hour <= 23 && 0 <= d.minute <= 59 && 0 <= d.second <= 59 &&
    0 <= d.microsecond <= 999999
  }

  /** No datetime is later than `datetime.max`. */
  lemma NotAfterMax(d: DateTime)
    requires ValidDateTime(d)
    ensures NotAfter(d, MaxDateTime)
  {
  }

  /** `v` followed by `n` zeros: how `%f` reads a fraction shorter than six digits. */
  function PadZeros(v: int, n: nat): int {
    if n == 0 then v else PadZeros(v, n - 1) * 10
  }

  /** The number the `n` decimal digits of `s` at `i` denote. */
  function FieldAt(s: string, i: nat, n: nat): int
    requires i + n <= |s|
  {
    if n == 0 then 0 else FieldAt(s, i, n - 1) * 10 + (s[i + n - 1] as int - '0' as int)
  }

  /** What the format asks for at position `i`: the separators of
      `%Y-%m-%dT%H:%M:%S.%f` (`T` in either case) and digits everywhere else. */
  predicate SlotFits(c: char, i: nat) {
    if i == 4 || i == 7 then c == '-'
    else if i == 10 then c == 'T' || c == 't'
    else if i == 13 || i == 16 then c == ':'
    else if i == 19 then c == '.'
    else IsDigit(c)
  }

  /** Every character from `i` on is what the format asks for at its position. */
  predicate FitsFrom(text: string, i: nat)
    decreases |text| - i
  {
    i >= |text| || (SlotFits(text[i], i) && FitsFrom(text, i + 1))
  }

  lemma {:induction false} FitsFromAll(text: string, i: nat)
    ensures FitsFrom(text, i) <==> forall j :: i <= j < |text| ==> SlotFits(text[j], j)
    decreases |text| - i
  {
    if i < |text| {
      FitsFromAll(text, i + 1);
    }
  }

  /** The text has the shape of the format: four- and two-digit fields with their
      separators, a dot, and one to six fractional digits. */
  predicate Layout(text: string) {
    21 <= |text| <= 26 && FitsFrom(text, 0)
  }

  /** `datetime.strptime(text, "%Y-%m-%dT%H:%M:%S.%f")` for text laid out with two-digit
      fields: `None` is the `ValueError` for a text that does not fit the format, for
      text left over after one to six fractional digits, and for values the calendar
      rejects. `%f` pads a short fraction with zeros on the right. */
  function Strptime(text: string): (r: Option<DateTime>)
    ensures r.Some? ==> ValidDateTime(r.value)
    ensures r.Some? ==> 21 <= |text| <= 26
  {
    if Layout(text) then
      var d := DateTime(FieldAt(text, 0, 4), FieldAt(text, 5, 2), FieldAt(text, 8, 2),
                        FieldAt(text, 11, 2), FieldAt(text, 14, 2), FieldAt(text, 17, 2),
                        PadZeros(FieldAt(text, 20, |text| - 20), 26 - |text|));
      if ValidDateTime(d) then Some(d) else None
    else None
  }

  function Min(a: int, b: int): int {
    if a <= b then a else b
  }

  /** The raw timestamp as the parser first rewrites it: cut to 26 characters with a `Z`
      appended when it holds a dot, unchanged otherwise. */
  function Truncated(raw: string): string {
    if '.' in raw then raw[..Min(26, |raw|)] + "Z" else raw
  }

  /** The timestamp text handed to strptime, the rewritten timestamp without its last
      character: with a dot, at most the first 26 characters (six fractional digits);
      without one, the raw text minus its last character. */
  function StrptimeInput(raw: string): string {
    if '.' in raw then raw[..Min(26, |raw|)]
    else if raw == [] then []
    else raw[..|raw| - 1]
  }

  /** `StrptimeInput` is the truncation followed by dropping the last character. */
  lemma StrptimeInputSteps(raw: string)
    ensures var t := Truncated(raw);
            StrptimeInput(raw) == if t == [] then [] else t[..|t| - 1]
  {
    var t := Truncated(raw);
    if '.' in raw {
      assert t[..|t| - 1] == raw[..Min(26, |raw|)];
    }
  }

  /** The time value of a raw timestamp, or `None` when strptime raises `ValueError`. */
  function ParseTimestamp(raw: string): (r: Option<DateTime>)
    ensures r.Some? ==> ValidDateTime(r.value)
  {
    Strptime(StrptimeInput(raw))
  }

  /** The date and time fields of the timestamp at `i`, with the first six fractional
      digits as the microseconds. */
  function StampFields(s: string, i: nat): DateTime
    requires StampHeadAt(s, i) && DigitsAt(s, i + 20, 6)
  {
    DateTime(FieldAt(s, i, 4), FieldAt(s, i + 5, 2), FieldAt(s, i + 8, 2), FieldAt(s, i + 11, 2),
             FieldAt(s, i + 14, 2), FieldAt(s, i + 17, 2), FieldAt(s, i + 20, 6))
  }

  /** A timestamp (the whole of `raw` matches the timestamp pattern) with fewer than six
      fractional digits keeps its `Z` in the strptime input, so it never parses. */
  lemma ShortFractionFails(raw: string)
    requires StampEnd(raw, 0) == Some(|raw|) && |raw| < 27
    ensures ParseTimestamp(raw) == None
  {
    assert raw[19] == '.';
    assert StrptimeInput(raw) == raw;
    FitsFromAll(raw, 0);
    assert !SlotFits(raw[|raw| - 1], |raw| - 1);
  }

  /** A timestamp with six or more fractional digits parses exactly when its fields form a
      valid date and time; digits after the sixth are ignored. */
  lemma LongFractionParses(raw: string)
    requires StampEnd(raw, 0) == Some(|raw|) && |raw| >= 27
    ensures DigitsAt(raw, 20, 6)
    ensures ParseTimestamp(raw) == if ValidDateTime(StampFields(raw, 0)) then Some(StampFields(raw, 0)) else None
  {
    DigitsAtAll(raw, 20, |raw| - 21);
    DigitsAtAll(raw, 20, 6);
    LongStampParses(raw);
  }

  /** The same, from the fixed part and the first six fractional digits alone. */
  lemma LongStampParses(raw: string)
    requires StampHeadAt(raw, 0) && DigitsAt(raw, 20, 6) && |raw| >= 27
    ensures ParseTimestamp(raw) == if ValidDateTime(StampFields(raw, 0)) then Some(StampFields(raw, 0)) else None
  {
    assert raw[19] == '.';
    StrptimeInputLong(raw);
    FieldsOfPrefix(raw);
  }

  /** The fields strptime reads from the first 26 characters are those of the timestamp. */
  lemma FieldsOfPrefix(raw: string)
    requires StampHeadAt(raw, 0) && DigitsAt(raw, 20, 6)
    ensures Layout(raw[..26])
    ensures StampFields(raw, 0) ==
      DateTime(FieldAt(raw[..26], 0, 4), FieldAt(raw[..26], 5, 2), FieldAt(raw[..26], 8, 2),
               FieldAt(raw[..26], 11, 2), FieldAt(raw[..26], 14, 2), FieldAt(raw[..26], 17, 2),
               PadZeros(FieldAt(raw[..26], 20, 6), 0))
  {
    LayoutOfStamp(raw, 0);
    assert raw[..26] == raw[0..0 + 26];
    FieldShift(raw, 0, 26, 0, 4);
    FieldShift(raw, 0, 26, 5, 2);
    FieldShift(raw, 0, 26, 8, 2);
    FieldShift(raw, 0, 26, 11, 2);
    FieldShift(raw, 0, 26, 14, 2);
    FieldShift(raw, 0, 26, 17, 2);
    FieldShift(raw, 0, 26, 20, 6);
  }

  /** A timestamp text longer than 26 characters holding a dot reaches strptime as its first 26. */
  lemma StrptimeInputLong(raw: string)
    requires |raw| >= 27 && '.' in raw
    ensures StrptimeInput(raw) == raw[..26]
  {
    var truncated := raw[..26] + "Z";
    assert truncated[..|truncated| - 1] == raw[..26];
  }

  /** The first 26 characters of a timestamp with six fractional digits fit the format. */
  lemma LayoutOfStamp(s: string, i: nat)
    requires StampHeadAt(s, i) && DigitsAt(s, i + 20, 6)
    ensures Layout(s[i..i + 26])
  {
    var t := s[i..i + 26];
    assert forall k :: 0 <= k < 26 ==> t[k] == s[i + k];
    FitsFromAll(t, 0);
  }

  /** A field read from a slice is the field read from the full text at the shifted position. */
  lemma {:induction false} FieldShift(s: string, i: nat, m: nat, a: nat, n: nat)
    requires i + m <= |s| && a + n <= m && DigitsAt(s, i + a, n)
    ensures DigitsAt(s[i..i + m], a, n) && FieldAt(s[i..i + m], a, n) == FieldAt(s, i + a, n)
  {
    if n > 0 {
      FieldShift(s, i, m, a, n - 1);
    }
  }

  /** A seven-digit fraction is cut to six digits before strptime sees it. */
  lemma SevenDigitExample()
    ensures ParseTimestamp("2024-01-15T10:30:00.1234567Z") == Strptime("2024-01-15T10:30:00.123456")
  {
    var raw := "2024-01-15T10:30:00.1234567Z";
    assert raw[19] == '.';
    StrptimeInputLong(raw);
    assert raw[..26] == "2024-01-15T10:30:00.123456";
  }

  /** A three-digit fraction keeps the `Z` in the strptime input and fails. */
  lemma ThreeDigitExample()
    ensures ParseTimestamp("2024-01-15T10:30:00.123Z") == None
  {
    var raw := "2024-01-15T10:30:00.123Z";
    assert raw[19] == '.';
    assert StrptimeInput(raw) == raw;
    FitsFromAll(raw, 0);
    assert !SlotFits(raw[|raw| - 1], |raw| - 1);
  }

  /** February 30th passes the timestamp pattern but not the calendar. */
  lemma CalendarExample()
    ensures ParseTimestamp("2023-02-30T00:00:00.000000Z") == None
  {
    var raw := "2023-02-30T00:00:00.000000Z";
    assert raw[19] == '.';
    StrptimeInputLong(raw);
    var text := raw[..26];
    assert text == "2023-02-30T00:00:00.000000";
  }
}
