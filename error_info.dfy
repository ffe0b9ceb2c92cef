/**
 * `update_error_info(pipeline_data)`: every `.txt` log of the logs directory is
 * parsed, and for every error found, every record of every platform whose "id"
 * is the part of the log's file name before the first `_` gets "ErrorType"
 * (2 for a prediction test case, 3 for an evaluation, 1 otherwise) and
 * "ErrorMessage" (the error's message). The first exception ends the whole
 * update and the records keep what was written before it.
 *
 * The pipeline data is a JSON value; the logs directory is given as its
 * listing, in `os.listdir` order, with each file's text (`None`: the file
 * cannot be read as UTF-8, which raises inside the `try`).
 */
module ErrorInfo {
  import opened Base
  import opened Text
  import opened Json
  import opened LogErrors

  /** A file of the logs directory: its name and its text, when it can be read. */
  datatype LogFile = LogFile(name: string, text: Option<string>)

  /** A value under update together with whether an exception has ended the update. */
  datatype Pass<T> = Pass(value: T, raised: bool)

  /** `log_file.split('_')[0]`: the id of the run a log file belongs to. */
  function LogId(name: string): string {
    Split(name, '_')[0]
  }

  /** The error type from the test-case name: `None` is the `TypeError` that `in` raises on a
      name that is neither a string, a list nor a dict. */
  function ErrorTypeCode(name: Json): (code: Option<int>)
    ensures code.None? <==> !(name.JString? || name.JArray? || name.JObject?)
    ensures name.JString? ==>
              code == Some(if Contains(name.s, "Prediction") then 2 else if Contains(name.s, "Evaluation") then 3 else 1)
  {
    match PyIn("Prediction", name)
    case None => None
    case Some(p) =>
      if p then Some(2)
      else
        match PyIn("Evaluation", name)
        case None => None
        case Some(e) => Some(if e then 3 else 1)
  }

  /** The loop body for one record: a record that is not a dict, or has no "id", raises; a
      record of another run stays; a record of this run gets the type and the message. */
  function RecordUpdate(record: Json, logId: string, message: string): Pass<Json> {
    match record
    case JObject(fs) =>
      (match Get(fs, "id")
       case None => Pass(record, true)
       case Some(id) =>
         if id != JString(logId) then Pass(record, false)
         else
           match ErrorTypeCode(GetOr(fs, "TestcaseName", JString("")))
           case None => Pass(record, true)
           case Some(code) => Pass(JObject(Put(Put(fs, "ErrorType", JNumber(code)), "ErrorMessage", JString(message))), false))
    case _ => Pass(record, true)
  }

  /** The records loop over the first `n` records of one platform. */
  function RecordsUpdate(items: seq<Json>, logId: string, message: string, n: nat): (r: Pass<seq<Json>>)
    requires n <= |items|
    ensures |r.value| == |items|
  {
    if n == 0 then Pass(items, false)
    else
      var prev := RecordsUpdate(items, logId, message, n - 1);
      if prev.raised then prev
      else
        var u := RecordUpdate(prev.value[n - 1], logId, message);
        Pass(prev.value[n - 1 := u.value], u.raised)
  }

  /** `for record in pipeline_data[platform]`: a list is walked record by record; iterating a
      non-empty dict or string yields strings, which raise when indexed by "id"; any other
      value is not iterable. */
  function PlatformUpdate(v: Json, logId: string, message: string): Pass<Json> {
    match v
    case JArray(items) =>
      var r := RecordsUpdate(items, logId, message, |items|);
      Pass(JArray(r.value), r.raised)
    case JObject(fs) => Pass(v, fs != [])
    case JString(s) => Pass(v, s != [])
    case _ => Pass(v, true)
  }

  /** The platforms loop over the first `n` platforms of the pipeline data. */
  function FieldsUpdate(fs: Fields, logId: string, message: string, n: nat): (r: Pass<Fields>)
    requires n <= |fs|
    ensures |r.value| == |fs|
  {
    if n == 0 then Pass(fs, false)
    else
      var prev := FieldsUpdate(fs, logId, message, n - 1);
      if prev.raised then prev
      else
        var u := PlatformUpdate(prev.value[n - 1].1, logId, message);
        Pass(prev.value[n - 1 := (prev.value[n - 1].0, u.value)], u.raised)
  }

  /** One error applied to the whole pipeline data. A top-level value that is not a dict has
      no platforms to index: a non-empty one raises. */
  function DataUpdate(data: Json, logId: string, message: string): Pass<Json> {
    match data
    case JObject(fs) =>
      var r := FieldsUpdate(fs, logId, message, |fs|);
      Pass(JObject(r.value), r.raised)
    case JArray(items) => Pass(data, items != [])
    case JString(s) => Pass(data, s != [])
    case _ => Pass(data, true)
  }

  /** The errors loop over the first `n` errors of one log. */
  function ErrorsUpdate(data: Json, logId: string, errors: seq<ErrorEntry>, n: nat): Pass<Json>
    requires n <= |errors|
  {
    if n == 0 then Pass(data, false)
    else
      var prev := ErrorsUpdate(data, logId, errors, n - 1);
      if prev.raised then prev
      else DataUpdate(prev.value, logId, errors[n - 1].message)
  }

  /** What the loop gets from one file of the listing: nothing for a file that is not a `.txt`
      log, an exception for a log that cannot be read, and otherwise the run id and the errors
      `parse_azure_pipeline_log` finds in its text. */
  datatype LogRead = NotALog | Unreadable | Read(logId: string, errors: seq<ErrorEntry>)

  function ReadLog(f: LogFile): LogRead {
    if !EndsWith(f.name, ".txt") then NotALog
    else
      match f.text
      case None => Unreadable
      case Some(t) => Read(LogId(f.name), ParsedErrors(t))
  }

  function ReadLogs(logs: seq<LogFile>): (parsed: seq<LogRead>)
    ensures |parsed| == |logs|
  {
    if logs == [] then [] else ReadLogs(logs[..|logs| - 1]) + [ReadLog(logs[|logs| - 1])]
  }

  /** Each file of the listing is read on its own. */
  lemma {:induction false} ReadLogsAt(logs: seq<LogFile>, i: nat)
    requires i < |logs|
    ensures ReadLogs(logs)[i] == ReadLog(logs[i])
  {
    if i < |logs| - 1 {
      ReadLogsAt(logs[..|logs| - 1], i);
    }
  }

  /** One file of the listing applied to the pipeline data. */
  function LogUpdate(data: Json, read: LogRead): Pass<Json> {
    match read
    case NotALog => Pass(data, false)
    case Unreadable => Pass(data, true)
    case Read(logId, errors) => ErrorsUpdate(data, logId, errors, |errors|)
  }

  /** The log-file loop over the first `n` files of the listing. */
  function LogsUpdate(data: Json, parsed: seq<LogRead>, n: nat): Pass<Json>
    requires n <= |parsed|
  {
    if n == 0 then Pass(data, false)
    else
      var prev := LogsUpdate(data, parsed, n - 1);
      if prev.raised then prev else LogUpdate(prev.value, parsed[n - 1])
  }

  /** What `update_error_info` returns: the pipeline data as far as the update got. */
  function ErrorInfoOf(data: Json, logs: seq<LogFile>): Json {
    LogsUpdate(data, ReadLogs(logs), |logs|).value
  }

  // ---------------------------------------------------------------------------
  // After an exception nothing more is processed

  lemma {:induction false} RecordsRaisedStays(items: seq<Json>, logId: string, message: string, n: nat, m: nat)
    requires n <= m <= |items| && RecordsUpdate(items, logId, message, n).raised
    ensures RecordsUpdate(items, logId, message, m) == RecordsUpdate(items, logId, message, n)
    decreases m
  {
    if m > n {
      RecordsRaisedStays(items, logId, message, n, m - 1);
    }
  }

  lemma {:induction false} FieldsRaisedStays(fs: Fields, logId: string, message: string, n: nat, m: nat)
    requires n <= m <= |fs| && FieldsUpdate(fs, logId, message, n).raised
    ensures FieldsUpdate(fs, logId, message, m) == FieldsUpdate(fs, logId, message, n)
    decreases m
  {
    if m > n {
      FieldsRaisedStays(fs, logId, message, n, m - 1);
    }
  }

  lemma {:induction false} ErrorsRaisedStays(data: Json, logId: string, errors: seq<ErrorEntry>, n: nat, m: nat)
    requires n <= m <= |errors| && ErrorsUpdate(data, logId, errors, n).raised
    ensures ErrorsUpdate(data, logId, errors, m) == ErrorsUpdate(data, logId, errors, n)
    decreases m
  {
    if m > n {
      ErrorsRaisedStays(data, logId, errors, n, m - 1);
    }
  }

  lemma {:induction false} LogsRaisedStays(data: Json, parsed: seq<LogRead>, n: nat, m: nat)
    requires n <= m <= |parsed| && LogsUpdate(data, parsed, n).raised
    ensures LogsUpdate(data, parsed, m) == LogsUpdate(data, parsed, n)
    decreases m
  {
    if m > n {
      LogsRaisedStays(data, parsed, n, m - 1);
    }
  }

  // ---------------------------------------------------------------------------
  // The loops

  /** `for record in records`, updating each record in place. */
  method UpdateRecords(items: seq<Json>, logId: string, message: string) returns (r: seq<Json>, raised: bool)
    ensures Pass(r, raised) == RecordsUpdate(items, logId, message, |items|)
  {
    r := items;
    var i := 0;
    while i < |items|
      invariant 0 <= i <= |items| && |r| == |items|
      invariant Pass(r, false) == RecordsUpdate(items, logId, message, i)
    {
      var u := RecordUpdate(r[i], logId, message);
      r := r[i := u.value];
      if u.raised {
        RecordsRaisedStays(items, logId, message, i + 1, |items|);
        return r, true;
      }
      i := i + 1;
    }
    return r, false;
  }

  /** The records of one platform value. */
  method UpdatePlatform(v: Json, logId: string, message: string) returns (r: Json, raised: bool)
    ensures Pass(r, raised) == PlatformUpdate(v, logId, message)
  {
    match v
    case JArray(items) =>
      var rs, e := UpdateRecords(items, logId, message);
      return JArray(rs), e;
    case JObject(fs) => return v, fs != [];
    case JString(s) => return v, s != [];
    case _ => return v, true;
  }

  /** `for platform in pipeline_data`, updating each platform's records in place. */
  method UpdateFields(fs: Fields, logId: string, message: string) returns (r: Fields, raised: bool)
    ensures Pass(r, raised) == FieldsUpdate(fs, logId, message, |fs|)
  {
    r := fs;
    var i := 0;
    while i < |fs|
      invariant 0 <= i <= |fs| && |r| == |fs|
      invariant Pass(r, false) == FieldsUpdate(fs, logId, message, i)
    {
      var v, e := UpdatePlatform(r[i].1, logId, message);
      r := r[i := (r[i].0, v)];
      if e {
        FieldsRaisedStays(fs, logId, message, i + 1, |fs|);
        return r, true;
      }
      i := i + 1;
    }
    return r, false;
  }

  /** One error applied to the pipeline data. */
  method UpdateData(data: Json, logId: string, message: string) returns (r: Json, raised: bool)
    ensures Pass(r, raised) == DataUpdate(data, logId, message)
  {
    match data
    case JObject(fs) =>
      var rs, e := UpdateFields(fs, logId, message);
      return JObject(rs), e;
    case JArray(items) => return data, items != [];
    case JString(s) => return data, s != [];
    case _ => return data, true;
  }

  /** `for error in errors` for one log. */
  method ApplyErrors(data: Json, logId: string, errors: seq<ErrorEntry>) returns (r: Json, raised: bool)
    ensures Pass(r, raised) == ErrorsUpdate(data, logId, errors, |errors|)
  {
    r := data;
    var i := 0;
    while i < |errors|
      invariant 0 <= i <= |errors|
      invariant Pass(r, false) == ErrorsUpdate(data, logId, errors, i)
    {
      var e;
      r, e := UpdateData(r, logId, errors[i].message);
      if e {
        ErrorsRaisedStays(data, logId, errors, i + 1, |errors|);
        return r, true;
      }
      i := i + 1;
    }
    return r, false;
  }

  /** The body of the log-file loop: read and parse the `i`-th file of the listing when it is
      a `.txt` log and apply its errors; an exception ends the whole loop. */
  method ApplyLog(r0: Json, f: LogFile, ghost data: Json, ghost parsed: seq<LogRead>, ghost i: nat)
    returns (r: Json, raised: bool)
    requires i < |parsed| && parsed[i] == ReadLog(f) && LogsUpdate(data, parsed, i) == Pass(r0, false)
    ensures Pass(r, raised) == LogsUpdate(data, parsed, i + 1)
    ensures raised ==> LogsUpdate(data, parsed, |parsed|) == Pass(r, true)
  {
    if !EndsWith(f.name, ".txt") {
      return r0, false;
    }
    if f.text.None? {
      LogsRaisedStays(data, parsed, i + 1, |parsed|);
      return r0, true;
    }
    var errors := ParseAzurePipelineLog(f.text.value);
    r, raised := ApplyErrors(r0, LogId(f.name), errors);
    if raised {
      LogsRaisedStays(data, parsed, i + 1, |parsed|);
    }
  }

  /** `update_error_info(pipeline_data)` over a listing of the logs directory. */
  method UpdateErrorInfo(data: Json, logs: seq<LogFile>) returns (r: Json)
    ensures r == ErrorInfoOf(data, logs)
  {
    ghost var parsed := ReadLogs(logs);
    assert ErrorInfoOf(data, logs) == LogsUpdate(data, parsed, |parsed|).value;
    r := data;
    var i := 0;
    while i < |logs|
      invariant 0 <= i <= |logs|
      invariant Pass(r, false) == LogsUpdate(data, parsed, i)
    {
      ReadLogsAt(logs, i);
      var e;
      r, e := ApplyLog(r, logs[i], data, parsed, i);
      if e {
        return r;
      }
      i := i + 1;
    }
  }

  // ---------------------------------------------------------------------------
  // What `update_error_info` promises

  /** The record is a dict whose "id" names one of the given runs. */
  predicate NamesRun(record: Json, ids: set<string>) {
    record.JObject? && Get(record.fields, "id").Some? && Get(record.fields, "id").value.JString? &&
    Get(record.fields, "id").value.s in ids
  }

  /** Every key other than "ErrorType" and "ErrorMessage" has the same value. */
  ghost predicate SameOtherKeys(a: Fields, b: Fields) {
    forall k :: k != "ErrorType" && k != "ErrorMessage" ==> Get(b, k) == Get(a, k)
  }

  /** A record is unchanged, or it names one of the runs and only its error keys changed. */
  ghost predicate RecordKept(a: Json, b: Json, ids: set<string>) {
    a == b || (NamesRun(a, ids) && b.JObject? && SameOtherKeys(a.fields, b.fields))
  }

  ghost predicate RecordsKept(a: seq<Json>, b: seq<Json>, ids: set<string>) {
    |a| == |b| && forall i :: 0 <= i < |a| ==> RecordKept(a[i], b[i], ids)
  }

  ghost predicate PlatformKept(a: Json, b: Json, ids: set<string>) {
    a == b || (a.JArray? && b.JArray? && RecordsKept(a.items, b.items, ids))
  }

  ghost predicate FieldsKept(a: Fields, b: Fields, ids: set<string>) {
    |a| == |b| && forall i :: 0 <= i < |a| ==> b[i].0 == a[i].0 && PlatformKept(a[i].1, b[i].1, ids)
  }

  /** The pipeline data keeps its platforms in order and its records in place, and only records
      of the given runs change, and only in "ErrorType" and "ErrorMessage". */
  ghost predicate DataKept(a: Json, b: Json, ids: set<string>) {
    a == b || (a.JObject? && b.JObject? && FieldsKept(a.fields, b.fields, ids))
  }

  /** A record of the run gets the code its test-case name calls for and the error's message. */
  lemma RecordUpdateMatched(fs: Fields, logId: string, message: string)
    requires Get(fs, "id") == Some(JString(logId))
    requires ErrorTypeCode(GetOr(fs, "TestcaseName", JString(""))).Some?
    ensures var r := RecordUpdate(JObject(fs), logId, message);
            !r.raised && r.value.JObject? &&
            Get(r.value.fields, "ErrorType") == Some(JNumber(ErrorTypeCode(GetOr(fs, "TestcaseName", JString(""))).value)) &&
            Get(r.value.fields, "ErrorMessage") == Some(JString(message))
  {
    var code := ErrorTypeCode(GetOr(fs, "TestcaseName", JString(""))).value;
    var f1 := Put(fs, "ErrorType", JNumber(code));
    GetPut(f1, "ErrorMessage", JString(message), "ErrorType");
    GetPut(fs, "ErrorType", JNumber(code), "ErrorType");
    GetPut(f1, "ErrorMessage", JString(message), "ErrorMessage");
  }

  lemma RecordUpdateKept(record: Json, logId: string, message: string, ids: set<string>)
    requires logId in ids
    ensures RecordKept(record, RecordUpdate(record, logId, message).value, ids)
  {
    if record.JObject? && Get(record.fields, "id") == Some(JString(logId)) {
      var fs := record.fields;
      var code := ErrorTypeCode(GetOr(fs, "TestcaseName", JString("")));
      if code.Some? {
        var f1 := Put(fs, "ErrorType", JNumber(code.value));
        var f2 := Put(f1, "ErrorMessage", JString(message));
        forall k | k != "ErrorType" && k != "ErrorMessage" ensures Get(f2, k) == Get(fs, k) {
          GetPut(f1, "ErrorMessage", JString(message), k);
          GetPut(fs, "ErrorType", JNumber(code.value), k);
        }
      }
    }
  }

  lemma {:induction false} RecordsUpdateKept(items: seq<Json>, logId: string, message: string, n: nat, ids: set<string>)
    requires n <= |items| && logId in ids
    ensures var r := RecordsUpdate(items, logId, message, n).value;
            RecordsKept(items, r, ids) && forall j :: n <= j < |items| ==> r[j] == items[j]
    decreases n
  {
    if n > 0 {
      RecordsUpdateKept(items, logId, message, n - 1, ids);
      var prev := RecordsUpdate(items, logId, message, n - 1);
      if !prev.raised {
        RecordUpdateKept(prev.value[n - 1], logId, message, ids);
      }
    }
  }

  lemma PlatformUpdateKept(v: Json, logId: string, message: string, ids: set<string>)
    requires logId in ids
    ensures PlatformKept(v, PlatformUpdate(v, logId, message).value, ids)
  {
    if v.JArray? {
      RecordsUpdateKept(v.items, logId, message, |v.items|, ids);
    }
  }

  lemma {:induction false} FieldsUpdateKept(fs: Fields, logId: string, message: string, n: nat, ids: set<string>)
    requires n <= |fs| && logId in ids
    ensures var r := FieldsUpdate(fs, logId, message, n).value;
            FieldsKept(fs, r, ids) && forall j :: n <= j < |fs| ==> r[j] == fs[j]
    decreases n
  {
    if n > 0 {
      FieldsUpdateKept(fs, logId, message, n - 1, ids);
      var prev := FieldsUpdate(fs, logId, message, n - 1);
      if !prev.raised {
        PlatformUpdateKept(prev.value[n - 1].1, logId, message, ids);
      }
    }
  }

  /** One error changes only the error keys of the records of its run, whether or not an
      exception cut the pass short. */
  lemma DataUpdateKept(data: Json, logId: string, message: string, ids: set<string>)
    requires logId in ids
    ensures DataKept(data, DataUpdate(data, logId, message).value, ids)
  {
    if data.JObject? {
      FieldsUpdateKept(data.fields, logId, message, |data.fields|, ids);
    }
  }

  lemma RecordKeptTrans(a: Json, b: Json, c: Json, ids: set<string>)
    requires RecordKept(a, b, ids) && RecordKept(b, c, ids)
    ensures RecordKept(a, c, ids)
  {
    if a != b && b != c {
      assert Get(b.fields, "id") == Get(a.fields, "id");
    }
  }

  lemma PlatformKeptTrans(a: Json, b: Json, c: Json, ids: set<string>)
    requires PlatformKept(a, b, ids) && PlatformKept(b, c, ids)
    ensures PlatformKept(a, c, ids)
  {
    if a != b && b != c {
      forall i | 0 <= i < |a.items| ensures RecordKept(a.items[i], c.items[i], ids) {
        RecordKeptTrans(a.items[i], b.items[i], c.items[i], ids);
      }
    }
  }

  lemma DataKeptTrans(a: Json, b: Json, c: Json, ids: set<string>)
    requires DataKept(a, b, ids) && DataKept(b, c, ids)
    ensures DataKept(a, c, ids)
  {
    if a != b && b != c {
      forall i | 0 <= i < |a.fields| ensures c.fields[i].0 == a.fields[i].0 && PlatformKept(a.fields[i].1, c.fields[i].1, ids) {
        PlatformKeptTrans(a.fields[i].1, b.fields[i].1, c.fields[i].1, ids);
      }
    }
  }

  lemma {:induction false} ErrorsUpdateKept(data: Json, logId: string, errors: seq<ErrorEntry>, n: nat, ids: set<string>)
    requires n <= |errors| && logId in ids
    ensures DataKept(data, ErrorsUpdate(data, logId, errors, n).value, ids)
    decreases n
  {
    if n > 0 {
      ErrorsUpdateKept(data, logId, errors, n - 1, ids);
      var prev := ErrorsUpdate(data, logId, errors, n - 1);
      if !prev.raised {
        DataUpdateKept(prev.value, logId, errors[n - 1].message, ids);
        DataKeptTrans(data, prev.value, ErrorsUpdate(data, logId, errors, n).value, ids);
      }
    }
  }

  lemma {:induction false} LogsUpdateKept(data: Json, parsed: seq<LogRead>, n: nat, ids: set<string>)
    requires n <= |parsed|
    requires forall j :: 0 <= j < |parsed| && parsed[j].Read? && parsed[j].errors != [] ==> parsed[j].logId in ids
    ensures DataKept(data, LogsUpdate(data, parsed, n).value, ids)
    decreases n
  {
    if n > 0 {
      LogsUpdateKept(data, parsed, n - 1, ids);
      var prev := LogsUpdate(data, parsed, n - 1);
      if !prev.raised && parsed[n - 1].Read? && parsed[n - 1].errors != [] {
        var read := parsed[n - 1];
        ErrorsUpdateKept(prev.value, read.logId, read.errors, |read.errors|, ids);
        DataKeptTrans(data, prev.value, LogsUpdate(data, parsed, n).value, ids);
      }
    }
  }

  /** The errors `parse_azure_pipeline_log` finds in one file of the listing: none unless it
      is a `.txt` log that can be read. */
  function ErrorsOf(f: LogFile): seq<ErrorEntry> {
    match ReadLog(f)
    case Read(_, errors) => errors
    case _ => []
  }

  /** The ids of the `.txt` logs of a listing in which at least one error is found. */
  function LogIds(logs: seq<LogFile>): set<string> {
    set i | 0 <= i < |logs| && ErrorsOf(logs[i]) != [] :: LogId(logs[i].name)
  }

  /** `update_error_info` keeps the platforms and the records in place and changes only
      "ErrorType" and "ErrorMessage", and only in records whose "id" names a `.txt` log of the
      listing with at least one error; this holds whether or not an exception ended it. */
  lemma ErrorInfoKept(data: Json, logs: seq<LogFile>)
    ensures DataKept(data, ErrorInfoOf(data, logs), LogIds(logs))
  {
    var parsed := ReadLogs(logs);
    forall j | 0 <= j < |parsed| && parsed[j].Read? && parsed[j].errors != [] ensures parsed[j].logId in LogIds(logs) {
      ReadLogsAt(logs, j);
    }
    LogsUpdateKept(data, parsed, |logs|, LogIds(logs));
  }

  /** When one record receives two errors of its run, the second message is what it keeps, and
      its error type stays the one its name calls for. */
  lemma LaterErrorWins(fs: Fields, logId: string, m1: string, m2: string)
    requires Get(fs, "id") == Some(JString(logId))
    requires ErrorTypeCode(GetOr(fs, "TestcaseName", JString(""))).Some?
    ensures var once := RecordUpdate(JObject(fs), logId, m1).value;
            var twice := RecordUpdate(once, logId, m2);
            !twice.raised && twice.value.JObject? &&
            Get(twice.value.fields, "ErrorMessage") == Some(JString(m2)) &&
            Get(twice.value.fields, "ErrorType") == Get(once.fields, "ErrorType")
  {
    RecordUpdateMatched(fs, logId, m1);
    var once := RecordUpdate(JObject(fs), logId, m1).value;
    RecordUpdateKept(JObject(fs), logId, m1, {logId});
    assert Get(once.fields, "id") == Get(fs, "id");
    assert Get(once.fields, "TestcaseName") == Get(fs, "TestcaseName");
    RecordUpdateMatched(once.fields, logId, m2);
  }

  /** A listing without `.txt` logs leaves the pipeline data as it is. */
  lemma {:induction false} NoLogsNoChange(data: Json, parsed: seq<LogRead>, n: nat)
    requires n <= |parsed| && forall j :: 0 <= j < n ==> parsed[j].NotALog?
    ensures LogsUpdate(data, parsed, n) == Pass(data, false)
    decreases n
  {
    if n > 0 {
      NoLogsNoChange(data, parsed, n - 1);
    }
  }

  lemma NoTextLogs(data: Json, logs: seq<LogFile>)
    requires forall j :: 0 <= j < |logs| ==> !EndsWith(logs[j].name, ".txt")
    ensures ErrorInfoOf(data, logs) == data
  {
    var parsed := ReadLogs(logs);
    forall j | 0 <= j < |logs| ensures parsed[j].NotALog? {
      ReadLogsAt(logs, j);
    }
    NoLogsNoChange(data, parsed, |logs|);
  }

  // ---------------------------------------------------------------------------
  // A run that raised nothing, record by record

  /** The (run id, message) pairs of the first `n` errors of one log, in order. */
  function ErrorSteps(logId: string, errors: seq<ErrorEntry>, n: nat): seq<(string, string)>
    requires n <= |errors|
  {
    if n == 0 then [] else ErrorSteps(logId, errors, n - 1) + [(logId, errors[n - 1].message)]
  }

  /** The (run id, message) pairs of the first `n` files of the listing, in the order the
      loops apply them. */
  function Steps(parsed: seq<LogRead>, n: nat): seq<(string, string)>
    requires n <= |parsed|
  {
    if n == 0 then []
    else
      Steps(parsed, n - 1) +
      match parsed[n - 1]
      case Read(logId, errors) => ErrorSteps(logId, errors, |errors|)
      case _ => []
  }

  /** One record put through the steps on its own. */
  function RecordSteps(record: Json, steps: seq<(string, string)>): Pass<Json> {
    if steps == [] then Pass(record, false)
    else
      var prev := RecordSteps(record, steps[..|steps| - 1]);
      if prev.raised then prev else RecordUpdate(prev.value, steps[|steps| - 1].0, steps[|steps| - 1].1)
  }

  /** The message of the last step of run `id`. */
  function LastFor(steps: seq<(string, string)>, id: string): Option<string> {
    if steps == [] then None
    else if steps[|steps| - 1].0 == id then Some(steps[|steps| - 1].1)
    else LastFor(steps[..|steps| - 1], id)
  }

  ghost predicate RecordsStepped(a: seq<Json>, b: seq<Json>, steps: seq<(string, string)>) {
    |b| == |a| && forall i :: 0 <= i < |a| ==> RecordSteps(a[i], steps) == Pass(b[i], false)
  }

  ghost predicate PlatformStepped(a: Json, b: Json, steps: seq<(string, string)>) {
    if a.JArray? then b.JArray? && RecordsStepped(a.items, b.items, steps) else b == a
  }

  /** Every record of `b` is the record of `a` at the same place put through the steps on its
      own without an exception, and nothing else differs. */
  ghost predicate DataStepped(a: Json, b: Json, steps: seq<(string, string)>) {
    if a.JObject? then
      b.JObject? && |b.fields| == |a.fields| &&
      forall p :: 0 <= p < |a.fields| ==> b.fields[p].0 == a.fields[p].0 && PlatformStepped(a.fields[p].1, b.fields[p].1, steps)
    else b == a
  }

  /** Without an exception the records loop updates each record on its own. */
  lemma {:induction false} RecordsUpdateEach(items: seq<Json>, logId: string, message: string, n: nat)
    requires n <= |items| && !RecordsUpdate(items, logId, message, n).raised
    ensures var r := RecordsUpdate(items, logId, message, n).value;
            (forall j :: 0 <= j < n ==> RecordUpdate(items[j], logId, message) == Pass(r[j], false)) &&
            (forall j :: n <= j < |items| ==> r[j] == items[j])
    decreases n
  {
    if n > 0 {
      RecordsUpdateEach(items, logId, message, n - 1);
    }
  }

  /** Without an exception the platforms loop updates each platform on its own. */
  lemma {:induction false} FieldsUpdateEach(fs: Fields, logId: string, message: string, n: nat)
    requires n <= |fs| && !FieldsUpdate(fs, logId, message, n).raised
    ensures var r := FieldsUpdate(fs, logId, message, n).value;
            (forall j :: 0 <= j < n ==> r[j].0 == fs[j].0 && PlatformUpdate(fs[j].1, logId, message) == Pass(r[j].1, false)) &&
            (forall j :: n <= j < |fs| ==> r[j] == fs[j])
    decreases n
  {
    if n > 0 {
      FieldsUpdateEach(fs, logId, message, n - 1);
    }
  }

  lemma DataUpdateStepped(a: Json, cur: Json, steps: seq<(string, string)>, logId: string, message: string)
    requires DataStepped(a, cur, steps) && !DataUpdate(cur, logId, message).raised
    ensures DataStepped(a, DataUpdate(cur, logId, message).value, steps + [(logId, message)])
  {
    var s := steps + [(logId, message)];
    assert s[..|s| - 1] == steps;
    if a.JObject? {
      var out := DataUpdate(cur, logId, message).value;
      FieldsUpdateEach(cur.fields, logId, message, |cur.fields|);
      forall p | 0 <= p < |a.fields|
        ensures out.fields[p].0 == a.fields[p].0 && PlatformStepped(a.fields[p].1, out.fields[p].1, s)
      {
        var v := cur.fields[p].1;
        if a.fields[p].1.JArray? {
          RecordsUpdateEach(v.items, logId, message, |v.items|);
        }
      }
    }
  }

  lemma {:induction false} ErrorsUpdateStepped(a: Json, cur: Json, steps: seq<(string, string)>, logId: string, errors: seq<ErrorEntry>, n: nat)
    requires n <= |errors| && DataStepped(a, cur, steps) && !ErrorsUpdate(cur, logId, errors, n).raised
    ensures DataStepped(a, ErrorsUpdate(cur, logId, errors, n).value, steps + ErrorSteps(logId, errors, n))
    decreases n
  {
    if n == 0 {
      assert steps + [] == steps;
    } else {
      ErrorsUpdateStepped(a, cur, steps, logId, errors, n - 1);
      var prev := ErrorsUpdate(cur, logId, errors, n - 1);
      DataUpdateStepped(a, prev.value, steps + ErrorSteps(logId, errors, n - 1), logId, errors[n - 1].message);
      assert steps + ErrorSteps(logId, errors, n) ==
             (steps + ErrorSteps(logId, errors, n - 1)) + [(logId, errors[n - 1].message)];
    }
  }

  /** Without an exception the log loop puts every record through all steps on its own. */
  lemma {:induction false} LogsUpdateStepped(data: Json, parsed: seq<LogRead>, n: nat)
    requires n <= |parsed| && !LogsUpdate(data, parsed, n).raised
    ensures DataStepped(data, LogsUpdate(data, parsed, n).value, Steps(parsed, n))
    decreases n
  {
    if n == 0 {
      NoSteps(data);
    } else {
      LogsUpdateStepped(data, parsed, n - 1);
      var prev := LogsUpdate(data, parsed, n - 1);
      assert !prev.raised && LogsUpdate(data, parsed, n) == LogUpdate(prev.value, parsed[n - 1]);
      if parsed[n - 1].Read? {
        var read := parsed[n - 1];
        assert Steps(parsed, n) == Steps(parsed, n - 1) + ErrorSteps(read.logId, read.errors, |read.errors|);
        ErrorsUpdateStepped(data, prev.value, Steps(parsed, n - 1), read.logId, read.errors, |read.errors|);
      } else {
        assert parsed[n - 1].NotALog? && LogsUpdate(data, parsed, n).value == prev.value;
        assert Steps(parsed, n) == Steps(parsed, n - 1) + [] == Steps(parsed, n - 1);
      }
    }
  }

  lemma NoSteps(a: Json)
    ensures DataStepped(a, a, [])
  {
    if a.JObject? {
      forall p | 0 <= p < |a.fields| ensures PlatformStepped(a.fields[p].1, a.fields[p].1, []) {
        if a.fields[p].1.JArray? {
          var items := a.fields[p].1.items;
          forall i | 0 <= i < |items| ensures RecordSteps(items[i], []) == Pass(items[i], false) {
          }
        }
      }
    }
  }

  /** A record of run `id` put through the steps without an exception keeps every key but the
      error keys; when some step is of its run it holds the last such step's message and the
      code its test-case name calls for, and otherwise it is unchanged. */
  lemma {:induction false} RecordStepsOfRun(fs: Fields, id: string, steps: seq<(string, string)>)
    requires Get(fs, "id") == Some(JString(id)) && !RecordSteps(JObject(fs), steps).raised
    ensures var r := RecordSteps(JObject(fs), steps).value;
            var code := ErrorTypeCode(GetOr(fs, "TestcaseName", JString("")));
            r.JObject? && SameOtherKeys(fs, r.fields) &&
            (LastFor(steps, id).None? ==> r == JObject(fs)) &&
            (LastFor(steps, id).Some? ==>
               code.Some? &&
               Get(r.fields, "ErrorMessage") == Some(JString(LastFor(steps, id).value)) &&
               Get(r.fields, "ErrorType") == Some(JNumber(code.value)))
    decreases |steps|
  {
    if steps != [] {
      var init := steps[..|steps| - 1];
      var last := steps[|steps| - 1];
      RecordStepsOfRun(fs, id, init);
      var cur := RecordSteps(JObject(fs), init).value;
      assert Get(cur.fields, "id") == Get(fs, "id");
      assert Get(cur.fields, "TestcaseName") == Get(fs, "TestcaseName");
      if last.0 == id {
        RecordUpdateMatched(cur.fields, id, last.1);
        RecordUpdateKept(cur, id, last.1, {id});
        var r := RecordUpdate(cur, id, last.1).value;
        assert SameOtherKeys(fs, r.fields) by {
          forall k | k != "ErrorType" && k != "ErrorMessage" ensures Get(r.fields, k) == Get(fs, k) {
            assert Get(r.fields, k) == Get(cur.fields, k);
          }
        }
      } else {
        assert JString(id) != JString(last.0);
      }
    }
  }

  /** Appending steps: the last step of a run among the new ones wins. */
  lemma {:induction false} LastForAppend(s: seq<(string, string)>, t: seq<(string, string)>, id: string)
    ensures LastFor(s + t, id) == if LastFor(t, id).Some? then LastFor(t, id) else LastFor(s, id)
    decreases |t|
  {
    if t == [] {
      assert s + t == s;
    } else {
      var t0 := t[..|t| - 1];
      assert (s + t)[..|s + t| - 1] == s + t0;
      LastForAppend(s, t0, id);
    }
  }

  lemma {:induction false} LastForErrors(logId: string, errors: seq<ErrorEntry>, n: nat, id: string)
    requires n <= |errors|
    ensures LastFor(ErrorSteps(logId, errors, n), id) == if logId == id && n > 0 then Some(errors[n - 1].message) else None
    decreases n
  {
    if n > 0 {
      var e := ErrorSteps(logId, errors, n);
      assert e[..|e| - 1] == ErrorSteps(logId, errors, n - 1);
      LastForErrors(logId, errors, n - 1, id);
    }
  }

  /** The last step of run `id` comes from the last log of that run with an error, and is that
      log's last error. */
  lemma {:induction false} LastForSteps(parsed: seq<LogRead>, n: nat, j: nat, id: string)
    requires j < n <= |parsed| && parsed[j].Read? && parsed[j].logId == id && parsed[j].errors != []
    requires forall j' :: j < j' < n && parsed[j'].Read? && parsed[j'].errors != [] ==> parsed[j'].logId != id
    ensures LastFor(Steps(parsed, n), id) == Some(parsed[j].errors[|parsed[j].errors| - 1].message)
    decreases n
  {
    var t := match parsed[n - 1] case Read(logId, errors) => ErrorSteps(logId, errors, |errors|) case _ => [];
    assert Steps(parsed, n) == Steps(parsed, n - 1) + t;
    LastForAppend(Steps(parsed, n - 1), t, id);
    if parsed[n - 1].Read? {
      LastForErrors(parsed[n - 1].logId, parsed[n - 1].errors, |parsed[n - 1].errors|, id);
    }
    if n - 1 > j {
      LastForSteps(parsed, n - 1, j, id);
    }
  }

  /** `update_error_info` ran to the end without an exception. */
  predicate UpdateCompleted(data: Json, logs: seq<LogFile>) {
    !LogsUpdate(data, ReadLogs(logs), |logs|).raised
  }

  /** In a run that raised nothing, a record whose "id" is the run id of a `.txt` log with
      errors ends with the message of the last error of the last such log of the listing, and
      with the error type its test-case name calls for; every other key keeps its value. */
  lemma ErrorInfoLastError(data: Json, logs: seq<LogFile>, p: nat, i: nat, j: nat)
    requires UpdateCompleted(data, logs)
    requires data.JObject? && p < |data.fields| && data.fields[p].1.JArray? && i < |data.fields[p].1.items|
    requires j < |logs| && ErrorsOf(logs[j]) != []
    requires forall j' :: j < j' < |logs| && ErrorsOf(logs[j']) != [] ==> LogId(logs[j'].name) != LogId(logs[j].name)
    requires data.fields[p].1.items[i].JObject?
    requires Get(data.fields[p].1.items[i].fields, "id") == Some(JString(LogId(logs[j].name)))
    ensures var rec := data.fields[p].1.items[i].fields;
            var out := ErrorInfoOf(data, logs);
            var errors := ErrorsOf(logs[j]);
            var code := ErrorTypeCode(GetOr(rec, "TestcaseName", JString("")));
            code.Some? &&
            out.JObject? && p < |out.fields| && out.fields[p].1.JArray? && i < |out.fields[p].1.items| &&
            out.fields[p].1.items[i].JObject? &&
            forall k :: Get(out.fields[p].1.items[i].fields, k) ==
              if k == "ErrorMessage" then Some(JString(errors[|errors| - 1].message))
              else if k == "ErrorType" then Some(JNumber(code.value))
              else Get(rec, k)
  {
    var parsed := ReadLogs(logs);
    var id := LogId(logs[j].name);
    var rec := data.fields[p].1.items[i];
    LogsUpdateStepped(data, parsed, |logs|);
    var out := ErrorInfoOf(data, logs);
    var steps := Steps(parsed, |logs|);
    assert RecordSteps(rec, steps) == Pass(out.fields[p].1.items[i], false);
    ReadLogsAt(logs, j);
    forall j' | j < j' < |parsed| && parsed[j'].Read? && parsed[j'].errors != [] ensures parsed[j'].logId != id {
      ReadLogsAt(logs, j');
    }
    LastForSteps(parsed, |parsed|, j, id);
    RecordStepsOfRun(rec.fields, id, steps);
  }
}
