/**
 * JSON values as `json.load` produces them, Python dict operations on JSON
 * objects (`d.get`, `d[k] = v`, `d.update`), Python's truthiness and `in`,
 * and `json.dumps` with its default settings.
 *
 * A JSON object is an insertion-ordered list of (key, value) pairs, as a
 * Python dict is. Lookups take the LAST pair with the key (what `json.load`
 * keeps for a repeated key) and assignment overwrites every pair with the key
 * in place or appends a new one, so no operation needs the keys to be distinct.
 * Numbers are integers: floating point is not modelled.
 */
module Json {
  import opened Base
  import opened Text

  datatype Json =
    | JNull
    | JBool(b: bool)
    | JNumber(n: int)
    | JString(s: string)
    | JArray(items: seq<Json>)
    | JObject(fields: seq<(string, Json)>)

  type Fields = seq<(string, Json)>

  /** `{}` */
  const EmptyObject: Json := JObject([])

  /** `k in d` */
  predicate HasKey(f: Fields, k: string) {
    exists i | 0 <= i < |f| :: f[i].0 == k
  }

  /** `d.get(k)`: the value of the last pair with key `k`. */
  function Get(f: Fields, k: string): (r: Option<Json>)
    ensures r.Some? <==> HasKey(f, k)
  {
    if f == [] then None
    else if f[|f| - 1].0 == k then Some(f[|f| - 1].1)
    else
      assert forall i :: 0 <= i < |f| - 1 ==> f[..|f| - 1][i] == f[i];
      Get(f[..|f| - 1], k)
  }

  /** `d.get(k, default)` */
  function GetOr(f: Fields, k: string, default: Json): Json {
    Get(f, k).GetOr(default)
  }

  /** Overwrite every pair with key `k`, keeping positions. */
  function Overwrite(f: Fields, k: string, v: Json): (r: Fields)
    ensures |r| == |f|
    ensures forall i :: 0 <= i < |f| ==> r[i].0 == f[i].0
  {
    if f == [] then []
    else Overwrite(f[..|f| - 1], k, v) + [if f[|f| - 1].0 == k then (k, v) else f[|f| - 1]]
  }

  /** `d[k] = v` */
  function Put(f: Fields, k: string, v: Json): Fields {
    if HasKey(f, k) then Overwrite(f, k, v) else f + [(k, v)]
  }

  /** `d.update(other)`: assign each pair of `other` in order. */
  function Update(f: Fields, other: Fields): Fields {
    if other == [] then f
    else Put(Update(f, other[..|other| - 1]), other[|other| - 1].0, other[|other| - 1].1)
  }

  lemma {:induction false} GetOverwrite(f: Fields, k: string, v: Json, k': string)
    requires HasKey(f, k)
    ensures Get(Overwrite(f, k, v), k') == if k' == k then Some(v) else Get(f, k')
  {
    if f != [] {
      var f0 := f[..|f| - 1];
      var r0 := Overwrite(f0, k, v);
      var r := Overwrite(f, k, v);
      assert r[..|r| - 1] == r0;
      if f[|f| - 1].0 != k' {
        if f[|f| - 1].0 == k {
          if HasKey(f0, k) {
            GetOverwrite(f0, k, v, k');
          } else {
            OverwriteAbsent(f0, k, v);
          }
        } else {
          var i :| 0 <= i < |f| && f[i].0 == k;
          assert f0[i].0 == k;
          GetOverwrite(f0, k, v, k');
        }
      }
    }
  }

  lemma {:induction false} OverwriteAbsent(f: Fields, k: string, v: Json)
    requires !HasKey(f, k)
    ensures Overwrite(f, k, v) == f
  {
    if f != [] {
      var f0 := f[..|f| - 1];
      forall i | 0 <= i < |f0| ensures f0[i].0 != k {
        assert f0[i] == f[i];
      }
      OverwriteAbsent(f0, k, v);
      assert f == f0 + [f[|f| - 1]];
    }
  }

  /** The last pair with a key decides its value. */
  lemma {:induction false} GetLast(f: Fields, i: nat, k: string)
    requires i < |f| && f[i].0 == k && forall j :: i < j < |f| ==> f[j].0 != k
    ensures Get(f, k) == Some(f[i].1)
    decreases |f|
  {
    if i < |f| - 1 {
      var f0 := f[..|f| - 1];
      GetLast(f0, i, k);
    }
  }

  /** After `d[k] = v`, `k` maps to `v` and every other key keeps its value. */
  lemma GetPut(f: Fields, k: string, v: Json, k': string)
    ensures Get(Put(f, k, v), k') == if k' == k then Some(v) else Get(f, k')
  {
    if HasKey(f, k) {
      GetOverwrite(f, k, v, k');
    } else {
      var r := f + [(k, v)];
      assert r[..|r| - 1] == f;
    }
  }

  /** `d.update(other)` is a shallow merge: keys of `other` take its value, all others keep theirs. */
  lemma {:induction false} GetUpdate(f: Fields, other: Fields, k: string)
    ensures Get(Update(f, other), k) == if HasKey(other, k) then Get(other, k) else Get(f, k)
  {
    if other != [] {
      var o0 := other[..|other| - 1];
      GetUpdate(f, o0, k);
      GetPut(Update(f, o0), other[|other| - 1].0, other[|other| - 1].1, k);
      assert HasKey(other, k) <==> HasKey(o0, k) || other[|other| - 1].0 == k by {
        if HasKey(other, k) && other[|other| - 1].0 != k {
          var i :| 0 <= i < |other| && other[i].0 == k;
          assert o0[i].0 == k;
        }
        if HasKey(o0, k) {
          var i :| 0 <= i < |o0| && o0[i].0 == k;
          assert other[i].0 == k;
        }
      }
    }
  }

  /** Python truthiness (`if value:`). */
  predicate Truthy(j: Json) {
    match j
    case JNull => false
    case JBool(b) => b
    case JNumber(n) => n != 0
    case JString(s) => s != ""
    case JArray(items) => items != []
    case JObject(fields) => fields != []
  }

  /** `needle in value` for a string needle: substring for a str, element for a list,
      key for a dict; `None` stands for the `TypeError` any other value raises. */
  function PyIn(needle: string, value: Json): (r: Option<bool>)
    ensures r.None? <==> !(value.JString? || value.JArray? || value.JObject?)
    ensures value.JString? ==> r == Some(Contains(value.s, needle))
  {
    match value
    case JString(s) => Some(Contains(s, needle))
    case JArray(items) => Some(JString(needle) in items)
    case JObject(fields) => Some(HasKey(fields, needle))
    case _ => None
  }

  // ---------------------------------------------------------------------------
  // json.dumps with the default settings: ", " and ": " separators,
  // ensure_ascii (every non-printable or non-ASCII character escaped).

  function DigitChar(d: nat): (c: char)
    requires d < 10
    ensures '0' <= c <= '9'
  {
    (48 + d) as char
  }

  function HexChar(d: nat): (c: char)
    requires d < 16
    ensures ' ' <= c <= '~'
  {
    if d < 10 then DigitChar(d) else (87 + d) as char
  }

  /** `str(n)` for a natural number. */
  function NatToString(n: nat): (s: string)
    ensures |s| >= 1
  {
    if n < 10 then [DigitChar(n)] else NatToString(n / 10) + [DigitChar(n % 10)]
  }

  /** `str(n)` of a natural number is made of decimal digits only. */
  lemma {:induction false} NatToStringDigits(n: nat)
    ensures forall i :: 0 <= i < |NatToString(n)| ==> '0' <= NatToString(n)[i] <= '9'
  {
    if n >= 10 {
      NatToStringDigits(n / 10);
    }
  }

  /** `str(n)` */
  function IntToString(n: int): string {
    if n < 0 then "-" + NatToString(-n) else NatToString(n)
  }

  /** `'{0:04x}'.format(n)` */
  function Hex4(n: nat): (s: string)
    requires n < 0x10000
    ensures |s| == 4
  {
    [HexChar(n / 0x1000), HexChar(n / 0x100 % 16), HexChar(n / 16 % 16), HexChar(n % 16)]
  }

  /** The escape json.dumps writes for one character. */
  function EscapeChar(c: char): string {
    if c == '"' then "\\\""
    else if c == '\\' then "\\\\"
    else if c == '\n' then "\\n"
    else if c == '\r' then "\\r"
    else if c == '\t' then "\\t"
    else if c == '\U{8}' then "\\b"
    else if c == '\U{c}' then "\\f"
    else if ' ' <= c <= '~' then [c]
    else if (c as int) < 0x10000 then "\\u" + Hex4(c as int)
    else
      var v := c as int - 0x10000;
      "\\u" + Hex4(0xd800 + v / 0x400) + "\\u" + Hex4(0xdc00 + v % 0x400)
  }

  function EscapeString(s: string): string {
    if s == [] then "" else EscapeChar(s[0]) + EscapeString(s[1..])
  }

  function Quote(s: string): string {
    "\"" + EscapeString(s) + "\""
  }

  /** `json.dumps(j)` */
  function Dumps(j: Json): string
    decreases j, 1, 0
  {
    match j
    case JNull => "null"
    case JBool(b) => if b then "true" else "false"
    case JNumber(n) => IntToString(n)
    case JString(s) => Quote(s)
    case JArray(items) => "[" + DumpItems(items) + "]"
    case JObject(fields) => "{" + DumpFields(fields, 0) + "}"
  }

  function DumpItems(items: seq<Json>): string
    decreases items, 0, 0
  {
    if items == [] then ""
    else if |items| == 1 then Dumps(items[0])
    else Dumps(items[0]) + ", " + DumpItems(items[1..])
  }

  /** The members of an object from index `i` on, separated by ", ". */
  function DumpFields(fields: Fields, i: nat): string
    decreases JObject(fields), 0, |fields| - i
  {
    if i >= |fields| then ""
    else
      assert fields[i] in fields;
      var member := Quote(fields[i].0) + ": " + Dumps(fields[i].1);
      if i == |fields| - 1 then member else member + ", " + DumpFields(fields, i + 1)
  }

  /** Every character is printable ASCII (space to tilde). */
  predicate Printable(s: string) {
    forall i :: 0 <= i < |s| ==> ' ' <= s[i] <= '~'
  }

  lemma PrintableConcat(a: string, b: string)
    requires Printable(a) && Printable(b)
    ensures Printable(a + b)
  {
    forall i | 0 <= i < |a + b| ensures ' ' <= (a + b)[i] <= '~' {
      if i >= |a| { assert (a + b)[i] == b[i - |a|]; }
    }
  }

  /** Every escape is printable ASCII, the `\u` escapes included. */
  lemma EscapeCharPrintable(c: char)
    ensures Printable(EscapeChar(c))
  {
  }

  lemma {:induction false} EscapeStringPrintable(s: string)
    ensures Printable(EscapeString(s))
  {
    if s != [] {
      EscapeStringPrintable(s[1..]);
      EscapeCharPrintable(s[0]);
      PrintableConcat(EscapeChar(s[0]), EscapeString(s[1..]));
    }
  }

  lemma QuotePrintable(s: string)
    ensures Printable(Quote(s))
  {
    EscapeStringPrintable(s);
    PrintableConcat("\"", EscapeString(s));
    PrintableConcat("\"" + EscapeString(s), "\"");
  }

  /** json.dumps output is pure printable ASCII: every other character is escaped. */
  lemma {:induction false} DumpsPrintable(j: Json)
    ensures Printable(Dumps(j))
    decreases j, 1, 0
  {
    match j
    case JNull =>
    case JBool(b) =>
    case JNumber(n) =>
      if n < 0 {
        NatToStringDigits(-n);
        PrintableConcat("-", NatToString(-n));
      } else {
        NatToStringDigits(n);
      }
    case JString(s) => QuotePrintable(s);
    case JArray(items) =>
      DumpItemsPrintable(items);
      PrintableConcat("[", DumpItems(items));
      PrintableConcat("[" + DumpItems(items), "]");
    case JObject(fields) =>
      DumpFieldsPrintable(fields, 0);
      PrintableConcat("{", DumpFields(fields, 0));
      PrintableConcat("{" + DumpFields(fields, 0), "}");
  }

  lemma {:induction false} DumpItemsPrintable(items: seq<Json>)
    ensures Printable(DumpItems(items))
    decreases items, 0, 0
  {
    if items != [] {
      DumpsPrintable(items[0]);
      if |items| > 1 {
        DumpItemsPrintable(items[1..]);
        PrintableConcat(Dumps(items[0]), ", ");
        PrintableConcat(Dumps(items[0]) + ", ", DumpItems(items[1..]));
      }
    }
  }

  lemma {:induction false} DumpFieldsPrintable(fields: Fields, i: nat)
    ensures Printable(DumpFields(fields, i))
    decreases JObject(fields), 0, |fields| - i
  {
    if i < |fields| {
      assert fields[i] in fields;
      var member := Quote(fields[i].0) + ": " + Dumps(fields[i].1);
      QuotePrintable(fields[i].0);
      DumpsPrintable(fields[i].1);
      PrintableConcat(Quote(fields[i].0), ": ");
      PrintableConcat(Quote(fields[i].0) + ": ", Dumps(fields[i].1));
      if i < |fields| - 1 {
        DumpFieldsPrintable(fields, i + 1);
        PrintableConcat(member, ", ");
        PrintableConcat(member + ", ", DumpFields(fields, i + 1));
      }
    }
  }
}
