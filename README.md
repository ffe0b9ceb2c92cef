# Pipeline log and artifact processing, modelled in Dafny

The repository is an Azure Function. It collects the results of an Azure
DevOps test pipeline and turns them into one record per test case. This
project models the two utility modules that hold its logic:

- `utils/logs_util.py`:
  - `parse_azure_pipeline_log` finds the `##[error]` lines and the Python
    exception blocks of a pipeline log. It gives each a timestamp, a message
    and an error type, and sorts them by time. Entries without a time go last.
  - `update_error_info` copies those errors into the pipeline records of the
    run whose id names the log file. The error type code is 2 for a
    prediction test, 3 for an evaluation test and 1 otherwise.
  - `generate_testcase_data` builds a placeholder record for every
    platform × model × test of the test matrix in `utils/config_util.py`. It
    merges those with the pipeline records and attaches the performance
    metrics of succeeded evaluation tests.
- `utils/artifacts_util.py`:
  - `process_file` and `process_artifact` flatten the `.json` files of a
    downloaded artifact, including nested zip archives, into a list of
    `{stem: content}` objects.
  - `write_combined_json_to_file` writes that list to `<artifact_name>.json`.
  - `fetch_performance_data` later reads such a file back for a test case.

## Layout

| file | module | contents |
|---|---|---|
| `base.dfy` | `Base` | `Option`, Python's `None` or a value |
| `text.dfy` | `Text` | the `str` and `os.path` operations the code uses: `in`, `endswith`, `strip`, `split`, `replace`, `basename`, `splitext` |
| `json.dfy` | `Json` | JSON values; dict `get`, assignment and `update` on insertion-ordered key lists; truthiness; `in`; `json.dumps` |
| `config.dfy` | `Config` | the platforms, models and tests of the matrix |
| `log_patterns.dfy` | `LogPatterns` | the regular expressions of the log parser, written out as scanners over the log; `re.finditer` and `re.search` |
| `timestamps.dfy` | `Timestamps` | `datetime`, its ordering, `datetime.max`, and `strptime` with the `%Y-%m-%dT%H:%M:%S.%f` format |
| `log_errors.dfy` | `LogErrors` | `parse_azure_pipeline_log`: the entries, the stable sort, and the loops as methods |
| `error_info.dfy` | `ErrorInfo` | `update_error_info`: the four nested loops as methods, with their exceptions |
| `testcase_data.dfy` | `TestcaseData` | `generate_testcase_data`: placeholders, `valid_records`, the merge |
| `performance.dfy` | `Performance` | `fetch_performance_data` |
| `artifacts.dfy` | `Artifacts` | `process_file`, the `process_artifact` loop and `write_combined_json_to_file`, on a file tree and a mutable artifacts directory |

The model works on values in place of the outside world:

- The logs directory is a list of `LogFile`s in `os.listdir` order. A
  `.txt` file whose text cannot be decoded has no text.
- The artifacts directory for `fetch_performance_data` is a list of `Listed`
  files, each with the JSON value `json.load` makes of it, if any. `None`
  stands for a directory that does not exist.
- An artifact is a tree of `Node`s. A zip node holds the nodes `os.walk`
  yields over its extraction.
- The artifacts directory that `write_combined_json_to_file` writes into is
  an `ArtifactsDir` object. Its `files` field maps each file name to the JSON
  value the file holds.

Exceptions are modelled where the code catches them:

- `update_error_info` stops at the first exception and returns the pipeline
  data as far as it got (`Pass`, with its `raised` flag).
- `generate_testcase_data` returns the lists built so far.
- `fetch_performance_data` returns `{}`.
- `process_artifact` keeps the files already written.

## Behaviour followed from the code

Where the comments or docstrings of the code suggest one thing and the
statements do another, the model follows the statements:

- The timestamp of a Python error is found with `re.search` on the log up to
  the error (`utils/logs_util.py:58`). That is the FIRST timestamp of the log,
  not the nearest one before the error (`LogErrors.StampBeforeIsLeftmost`).
- An ADO error whose timestamp does not parse is dropped, not kept with an
  empty time (`utils/logs_util.py:50-51`). With the `[:26] + "Z"` truncation
  followed by `[:-1]`, this happens to every timestamp with fewer than six
  fractional digits: the `Z` stays in the text handed to `strptime`. See
  `LogErrors.AdoShortFraction` and `Timestamps.ThreeDigitExample`.
- Timestamps with more than six fractional digits are cut to six
  (`Timestamps.SevenDigitExample`).
- The sort is Python's stable sort. Entries with equal keys keep their
  order: all ADO errors first, then the Python errors pattern by pattern.
- The docstring of `generate_testcase_data` calls `build_id` an int
  (`utils/logs_util.py:129`). Its caller passes the blob name minus its
  `_run_data.zip` suffix, a str (`function_app.py:35`,
  `utils/data_util.py:46`). The model takes the build id as a string: it is
  stored as a JSON string in "PipelineRunID" and spliced into the run link
  as it is.
- The outer `try` of `parse_azure_pipeline_log` cannot catch anything.
  Every `ValueError` of `strptime` is caught inside it, and the scans do not
  raise. The model has no exception path there.

## Model

| member | source | states |
|---|---|---|
| `Json.Get` | utils/logs_util.py:107 | `d.get(k)` finds a value exactly when some pair of the dict has key `k` |
| `Json.Overwrite` | utils/logs_util.py:179 | assigning an existing key keeps the length and every key in its place |
| `Json.GetOverwrite` | utils/logs_util.py:179 | after overwriting key `k`, `k` maps to the new value and every other key to its old one |
| `Json.OverwriteAbsent` | utils/logs_util.py:179 | overwriting a key the dict lacks changes nothing |
| `Json.GetLast` | utils/logs_util.py:164-169 | the last pair with a key decides its value, as a later assignment replaces an earlier one |
| `Json.GetPut` | utils/logs_util.py:179 | after `d[k] = v`, `k` maps to `v` and every other key keeps its value |
| `Json.GetUpdate` | utils/logs_util.py:175 | `d.update(other)` is a shallow merge: keys of `other` take its values, the rest keep theirs |
| `Json.NatToStringDigits` | utils/logs_util.py:181 | the decimal text of a number is made of decimal digits only |
| `Json.EscapeCharPrintable` | utils/logs_util.py:181 | escaping one character yields printable ASCII only |
| `Json.EscapeStringPrintable` | utils/logs_util.py:181 | with `ensure_ascii`, an escaped string is printable ASCII |
| `Json.QuotePrintable` | utils/logs_util.py:181 | a quoted string is printable ASCII |
| `Json.DumpsPrintable` | utils/logs_util.py:181 | the `json.dumps` text of any value is printable ASCII on one line |
| `Json.DumpItemsPrintable` | utils/logs_util.py:181 | the items of a dumped list are printable ASCII |
| `Json.DumpFieldsPrintable` | utils/logs_util.py:181 | the members of a dumped dict are printable ASCII |
| `Text.MissingFirstChar` | utils/artifacts_util.py:42 | a string without the first character of a needle does not contain it |
| `Text.TrimStartCut` | utils/logs_util.py:47 | `lstrip` drops exactly the leading whitespace, up to the first non-space |
| `Text.TrimEndCut` | utils/logs_util.py:47 | `rstrip` drops exactly the trailing whitespace, back to the last non-space |
| `Text.StripCut` | utils/logs_util.py:47 | `strip` keeps one slice, with only whitespace outside it and no whitespace at either end of it |
| `Text.IndexOf` | utils/artifacts_util.py:25 | the first occurrence of a character, or none at all |
| `Text.LastIndexOfLast` | utils/artifacts_util.py:159 | no later character repeats the one found, and `None` means there is none |
| `Text.LastIndexOfIs` | utils/artifacts_util.py:162 | the occurrence no later character repeats is the one found |
| `Text.JoinSplit` | utils/artifacts_util.py:25 | joining the parts of a split gives back the string, and no part holds the separator |
| `Text.SplitAtFirst` | utils/artifacts_util.py:25 | a string holding the separator splits into at least two parts, the first ending just before it |
| `Text.SplitAfter` | utils/artifacts_util.py:25 | a separator-free head followed by the separator comes off as the first part |
| `Text.ReplaceAbsent` | utils/artifacts_util.py:28 | `replace` leaves a string without the pattern unchanged |
| `Text.BasenameCut` | utils/artifacts_util.py:159 | the basename is the suffix after the last `/` and holds no `/` |
| `Text.StemOfJson` | utils/artifacts_util.py:162 | for a `.json` basename with a non-dot before the extension, stem + `.json` is the basename |
| `LogPatterns.DigitsAtAll` | utils/logs_util.py:20 | a run of `\d` holds exactly when every character in it is a digit |
| `LogPatterns.DigitsAtShift` | utils/logs_util.py:20 | whether a run is all digits depends only on its characters |
| `LogPatterns.StampHeadShift` | utils/logs_util.py:20 | whether a timestamp's fixed 20 characters fit depends only on those characters |
| `LogPatterns.DigitRun` | utils/logs_util.py:20 | `\d+` takes a run of digits followed by a non-digit or the end |
| `LogPatterns.DigitRunUnique` | utils/logs_util.py:20 | that greedy run is the only one a digit does not follow |
| `LogPatterns.StampEnd` | utils/logs_util.py:20 | a timestamp match has the fixed head, at least one fractional digit and ends with `Z` |
| `LogPatterns.StampEndIff` | utils/logs_util.py:20 | a timestamp with `f` fractional digits matches exactly when the head fits, the digits follow and a `Z` comes next |
| `LogPatterns.StampEndPrefix` | utils/logs_util.py:58 | a timestamp in a prefix of the log is exactly a timestamp of the log that ends within the prefix |
| `LogPatterns.StampEndSlice` | utils/logs_util.py:41 | the text of a timestamp match matches the timestamp pattern on its own |
| `LogPatterns.MessageEndStops` | utils/logs_util.py:21 | the lazy message stops at the first date prefix `dddd-dd-ddT`, or at the end of the log |
| `LogPatterns.MatchAt` | utils/logs_util.py:21-33 | a match starting at a position lies within the log, its message after its prefix |
| `LogPatterns.MatchAtShape` | utils/logs_util.py:21-33 | an ADO match is a timestamp then ` ##[error]`; a keyword match starts with its literal; both messages run to the lookahead |
| `LogPatterns.Scan` | utils/logs_util.py:39 | the scan's matches lie after its start, in order and without overlapping |
| `LogPatterns.ScanSound` | utils/logs_util.py:39 | every match the scan takes is the match at its start |
| `LogPatterns.ScanCovers` | utils/logs_util.py:39 | every position where a match starts lies within some match the scan takes |
| `LogPatterns.FindIter` | utils/logs_util.py:39 | `finditer` matches are in order and do not overlap |
| `LogPatterns.FindIterSound` | utils/logs_util.py:39 | every `finditer` match is the pattern's match at its start |
| `LogPatterns.FindIterCovers` | utils/logs_util.py:55 | a match that `finditer` skips lies inside one it took |
| `LogPatterns.FirstStampLeftmost` | utils/logs_util.py:58 | `re.search` finds the leftmost timestamp, and `None` means there is none |
| `Timestamps.NotAfterTotal` | utils/logs_util.py:79 | datetimes are totally ordered, and antisymmetrically |
| `Timestamps.NotAfterTransitive` | utils/logs_util.py:79 | the datetime order is transitive |
| `Timestamps.NotAfterMax` | utils/logs_util.py:79 | no valid datetime is later than `datetime.max` |
| `Timestamps.FitsFromAll` | utils/logs_util.py:44 | text fits the format layout exactly when every character fits its slot |
| `Timestamps.Strptime` | utils/logs_util.py:44 | a parsed datetime is valid in the calendar, from 21 to 26 characters of text |
| `Timestamps.StrptimeInputSteps` | utils/logs_util.py:43-44 | the text `strptime` gets is the truncated timestamp without its last character |
| `Timestamps.ParseTimestamp` | utils/logs_util.py:43-44 | the truncation and `strptime` together give only valid datetimes |
| `Timestamps.ShortFractionFails` | utils/logs_util.py:43-44 | a timestamp with fewer than six fractional digits never parses |
| `Timestamps.LongFractionParses` | utils/logs_util.py:43-44 | a timestamp with at least six fractional digits parses to its fields, microseconds from the first six, when the calendar admits them |
| `Timestamps.LongStampParses` | utils/logs_util.py:43-44 | a head and six digits parse to the fields, when the calendar admits them |
| `Timestamps.FieldsOfPrefix` | utils/logs_util.py:43-44 | the first 26 characters of a long timestamp fit the layout and hold its fields |
| `Timestamps.StrptimeInputLong` | utils/logs_util.py:43 | for a timestamp with a dot and at least 27 characters, `strptime` gets its first 26 |
| `Timestamps.LayoutOfStamp` | utils/logs_util.py:44 | a head and six digits fit the `strptime` layout |
| `Timestamps.FieldShift` | utils/logs_util.py:44 | a numeric field reads the same in a slice as in the whole text |
| `Timestamps.SevenDigitExample` | utils/logs_util.py:43-44 | `...00.1234567Z` parses as `...00.123456` |
| `Timestamps.ThreeDigitExample` | utils/logs_util.py:43-44 | `...00.123Z` does not parse |
| `Timestamps.CalendarExample` | utils/logs_util.py:44 | February 30 does not parse |
| `LogErrors.AdoMatches` | utils/logs_util.py:39 | the ADO matches of the log, each with room for its timestamp and marker before its message, all within the log |
| `LogErrors.AdoMatchesShaped` | utils/logs_util.py:39 | every ADO match holds its timestamp, its marker and its message within the log |
| `LogErrors.KeywordHits` | utils/logs_util.py:55 | every keyword match lies within the log |
| `LogErrors.PatternEntriesStep` | utils/logs_util.py:54-73 | each pattern, in dict order, appends the entries of its matches |
| `LogErrors.AdoMatchMessage` | utils/logs_util.py:40-49 | an ADO match gives at most one entry; its message holds no date prefix and stops at the next one or the end |
| `LogErrors.AdoStamp` | utils/logs_util.py:41 | group 1 of an ADO match is a whole timestamp |
| `LogErrors.AdoEntryNone` | utils/logs_util.py:50-51 | an ADO match whose timestamp does not parse gives no entry |
| `LogErrors.AdoStampShort` | utils/logs_util.py:43-44 | the timestamp of an ADO match with fewer than six fractional digits does not parse |
| `LogErrors.AdoShortFraction` | utils/logs_util.py:43-51 | an ADO match with fewer than six fractional digits gives no entry |
| `LogErrors.AdoEntryParsed` | utils/logs_util.py:45-49 | an ADO match whose timestamp parses gives one entry: that time, the stripped message, "ADO Error" |
| `LogErrors.AdoLongFraction` | utils/logs_util.py:43-49 | an ADO match with six or more fractional digits gives an entry exactly when its fields form a valid datetime |
| `LogErrors.PythonLiteralsSolid` | utils/logs_util.py:22-33 | every keyword pattern's literal is non-empty with no whitespace at either end |
| `LogErrors.KeywordEntryOfMatch` | utils/logs_util.py:56-73 | a keyword entry has its pattern's type and the log's first timestamp before it; its message starts with the literal and holds no date prefix |
| `LogErrors.StampBeforeIsLeftmost` | utils/logs_util.py:58-65 | the time of a Python error is the parse of the leftmost timestamp that ends before the error |
| `LogErrors.StampBeforeNone` | utils/logs_util.py:59-61 | without a timestamp before the error, its time is `None` |
| `LogErrors.UnsortedValidTimes` | utils/logs_util.py:35-73 | every time the parser collects is a valid datetime |
| `LogErrors.AdoValidTimes` | utils/logs_util.py:40-51 | every ADO entry time is a valid datetime |
| `LogErrors.AdoEntriesStep` | utils/logs_util.py:40-51 | one more ADO match keeps every time valid |
| `LogErrors.AdoEntryValid` | utils/logs_util.py:44-49 | the time of an ADO entry is a valid datetime |
| `LogErrors.KeywordValidTimes` | utils/logs_util.py:56-73 | every keyword entry time is a valid datetime or `None` |
| `LogErrors.KeywordEntriesStep` | utils/logs_util.py:56-73 | one more keyword match keeps every time valid |
| `LogErrors.KeywordEntryValid` | utils/logs_util.py:58-73 | the time of a keyword entry is a valid datetime or `None` |
| `LogErrors.StampBeforeValid` | utils/logs_util.py:58-67 | the time found before a Python error is a valid datetime |
| `LogErrors.PatternValidTimes` | utils/logs_util.py:54-73 | every time from the Python patterns is valid |
| `LogErrors.InsertSorted` | utils/logs_util.py:79 | inserting into a sorted list keeps it sorted by time, `None` as `datetime.max` |
| `LogErrors.InsertBounded` | utils/logs_util.py:79 | inserting keeps a lower bound of all times |
| `LogErrors.InsertMembers` | utils/logs_util.py:79 | inserting adds the entry and keeps all others |
| `LogErrors.StableSortSorted` | utils/logs_util.py:79 | the sorted errors are ordered by time, `None` as `datetime.max` |
| `LogErrors.StableSortPermutation` | utils/logs_util.py:79 | sorting is a permutation of the collected errors |
| `LogErrors.InsertWithKey` | utils/logs_util.py:79 | among the entries with its key, the inserted one comes first and the others keep their order |
| `LogErrors.StableSortStable` | utils/logs_util.py:79 | the sort is stable: entries with equal keys keep their order |
| `LogErrors.NoneLast` | utils/logs_util.py:79 | after sorting, entries without a time come after every entry timed before `datetime.max` |
| `LogErrors.ParsedNoneLast` | utils/logs_util.py:79-82 | in the parser's result, entries without a time come after every entry timed before `datetime.max` |
| `LogErrors.CollectAdoErrors` | utils/logs_util.py:39-51 | the ADO loop appends the entries of the matches in order |
| `LogErrors.AdoMatchEntry` | utils/logs_util.py:41-51 | one ADO iteration appends the match's entry, or nothing on `ValueError` |
| `LogErrors.CollectKeywordErrors` | utils/logs_util.py:56-73 | the loop over one pattern's matches appends their entries in order |
| `LogErrors.AddKeywordEntry` | utils/logs_util.py:57-73 | one keyword iteration appends its entry |
| `LogErrors.CollectPatternErrors` | utils/logs_util.py:54-73 | the pattern loop appends each pattern's entries in dict order |
| `LogErrors.ParseAzurePipelineLog` | utils/logs_util.py:9-82 | the result is the sorted list of entries: ordered by time, `None` last, and a permutation of those collected |
| `ErrorInfo.ErrorTypeCode` | utils/logs_util.py:107-112 | the error type code is 2 for a name holding "Prediction", else 3 for "Evaluation", else 1; `in` raises on other kinds of names |
| `ErrorInfo.ReadLogsAt` | utils/logs_util.py:99-102 | each file of the listing is read on its own |
| `ErrorInfo.RecordsRaisedStays` | utils/logs_util.py:117-118 | after an exception in the records loop, no further record changes |
| `ErrorInfo.FieldsRaisedStays` | utils/logs_util.py:117-118 | after an exception in the platforms loop, no further platform changes |
| `ErrorInfo.ErrorsRaisedStays` | utils/logs_util.py:117-118 | after an exception in the errors loop, no further error is applied |
| `ErrorInfo.LogsRaisedStays` | utils/logs_util.py:117-118 | after an exception, no further log file is processed |
| `ErrorInfo.UpdateRecords` | utils/logs_util.py:105-116 | the records loop gives the records loop's value and exception flag |
| `ErrorInfo.UpdatePlatform` | utils/logs_util.py:104-105 | one platform value gives its records' update, and iterating a non-list raises |
| `ErrorInfo.UpdateFields` | utils/logs_util.py:104-116 | the platforms loop updates each platform in turn until an exception |
| `ErrorInfo.UpdateData` | utils/logs_util.py:104-116 | one error applied to the whole pipeline data |
| `ErrorInfo.ApplyErrors` | utils/logs_util.py:103-116 | the errors of one log applied in order, until an exception |
| `ErrorInfo.ApplyLog` | utils/logs_util.py:99-118 | one log file applied; an exception ends the whole loop with the data as it stands |
| `ErrorInfo.UpdateErrorInfo` | utils/logs_util.py:85-120 | the result is the pipeline data after every `.txt` log's errors, up to the first exception |
| `ErrorInfo.RecordUpdateMatched` | utils/logs_util.py:106-116 | a record of the run gets the type code its name calls for and the error's message |
| `ErrorInfo.RecordUpdateKept` | utils/logs_util.py:106-116 | a record changes only if it names the run, and then only in its error keys |
| `ErrorInfo.RecordsUpdateKept` | utils/logs_util.py:105-116 | the records loop changes only records of the run, moves none and leaves the unvisited untouched |
| `ErrorInfo.PlatformUpdateKept` | utils/logs_util.py:105-116 | one platform's update changes only records of the run |
| `ErrorInfo.FieldsUpdateKept` | utils/logs_util.py:104-116 | the platforms loop keeps every platform key in place and changes only records of the run |
| `ErrorInfo.DataUpdateKept` | utils/logs_util.py:104-116 | one error changes only the error keys of records of its run, exception or not |
| `ErrorInfo.RecordKeptTrans` | utils/logs_util.py:103-116 | changing only error keys, twice, changes only error keys |
| `ErrorInfo.PlatformKeptTrans` | utils/logs_util.py:103-116 | the platform-level "only error keys changed" relation composes |
| `ErrorInfo.DataKeptTrans` | utils/logs_util.py:103-116 | the data-level "only error keys changed" relation composes |
| `ErrorInfo.ErrorsUpdateKept` | utils/logs_util.py:103-116 | all errors of one log change only error keys of records of its run |
| `ErrorInfo.LogsUpdateKept` | utils/logs_util.py:99-118 | the log-file loop changes only error keys of records of the runs read |
| `ErrorInfo.ErrorInfoKept` | utils/logs_util.py:85-120 | `update_error_info` keeps platforms and records in place, and changes only "ErrorType" and "ErrorMessage" of records whose id names a `.txt` log with at least one parsed error; every other record is unchanged, exception or not |
| `ErrorInfo.LaterErrorWins` | utils/logs_util.py:103-116 | a record receiving two errors of its run keeps the second message and its type code |
| `ErrorInfo.NoLogsNoChange` | utils/logs_util.py:95-99 | a listing whose files are all skipped changes nothing |
| `ErrorInfo.NoTextLogs` | utils/logs_util.py:95 | without `.txt` files the pipeline data is returned unchanged |
| `ErrorInfo.RecordsUpdateEach` | utils/logs_util.py:105-116 | without an exception the records loop updates every record on its own, in place |
| `ErrorInfo.FieldsUpdateEach` | utils/logs_util.py:104-116 | without an exception the platforms loop updates every platform on its own and keeps its key |
| `ErrorInfo.NoSteps` | utils/logs_util.py:85-97 | before any error, every record is as it came in |
| `ErrorInfo.DataUpdateStepped` | utils/logs_util.py:104-116 | one more error without an exception puts every record through one more step |
| `ErrorInfo.ErrorsUpdateStepped` | utils/logs_util.py:103-116 | the errors of one log, without an exception, put every record through one step per error, in order |
| `ErrorInfo.LogsUpdateStepped` | utils/logs_util.py:99-116 | a log loop without an exception puts every record through the errors of every `.txt` log in listing order |
| `ErrorInfo.RecordStepsOfRun` | utils/logs_util.py:106-116 | a record of a run keeps every non-error key; it holds the message of the last error of its run and its name's type code, or is unchanged when no error is of its run |
| `ErrorInfo.LastForAppend` | utils/logs_util.py:103-116 | among errors applied later and earlier, the later error of a run wins |
| `ErrorInfo.LastForErrors` | utils/logs_util.py:103 | within one log, the last error is the last one of its run |
| `ErrorInfo.LastForSteps` | utils/logs_util.py:99-116 | the last error applied for a run is the last error of the last log of that run with errors |
| `ErrorInfo.ErrorInfoLastError` | utils/logs_util.py:85-120 | when no exception occurs, a record whose id names a log with errors ends with the last error of the last such log as "ErrorMessage", its name's code as "ErrorType", and every other key unchanged |
| `Performance.SplitOnDot` | utils/artifacts_util.py:21-25 | a name holding a dot splits into at least two parts, so part 1 exists |
| `Performance.FetchPerformanceData` | utils/artifacts_util.py:21-36 | a name without a dot, or a missing directory, gives `{}` |
| `Performance.SearchFindsFirst` | utils/artifacts_util.py:39-48 | the first `.json` file naming the architecture and the model decides the result |
| `Performance.SearchNoMatch` | utils/artifacts_util.py:39-54 | without a qualifying file the result is `{}` |
| `Performance.SearchNonString` | utils/artifacts_util.py:42-52 | an architecture that is not a string makes `in` raise, which gives `{}` |
| `Performance.FetchFirstMatch` | utils/artifacts_util.py:8-54 | the result is the content of the first qualifying file, `{}` if it does not load |
| `Performance.FetchNoMatch` | utils/artifacts_util.py:8-54 | without a qualifying file the result is `{}` |
| `Performance.SecondPart` | utils/artifacts_util.py:25-28 | part 1 of `head.part.tail` is `part` when neither holds a dot |
| `Performance.DropEvaluation` | utils/artifacts_util.py:28 | removing "Evaluation_" from `Evaluation_<m>` leaves `m` |
| `Performance.ModelNameOfEvaluation` | utils/artifacts_util.py:25-28 | the model name of an evaluation test-case name is its model |
| `TestcaseData.PlatformDefaults` | utils/logs_util.py:139-160 | the model and test loops append every placeholder of the platform in order |
| `TestcaseData.PlaceholderStep` | utils/logs_util.py:139-160 | each cell's placeholder is appended at position model × tests + test |
| `TestcaseData.PlaceholderAt` | utils/logs_util.py:139-160 | the placeholder at position model × tests + test is that cell's |
| `TestcaseData.MergePlatform` | utils/logs_util.py:172-181 | the merge loop over one platform's records merges each in place and keeps their number |
| `TestcaseData.GenerateTestcaseData` | utils/logs_util.py:122-187 | the result is the placeholders merged with the valid pipeline records, or empty lists when the metadata is not a dict |
| `TestcaseData.PlaceholderGet` | utils/logs_util.py:142-159 | every key of a default record maps to its value, as the keys are distinct |
| `TestcaseData.NameStartsWithTest` | utils/logs_util.py:141 | a test-case name starts with its test kind's letter |
| `TestcaseData.NamesDistinct` | utils/logs_util.py:141 | different cells of one platform have different test-case names |
| `TestcaseData.PlainPlatform` | utils/config_util.py:4 | no platform name holds a dot |
| `TestcaseData.PlainModel` | utils/config_util.py:5 | no model name holds a dot or an `E` |
| `TestcaseData.EvaluationName` | utils/logs_util.py:141 | an evaluation test-case name is `Evaluation_Stage_<p>.Evaluation_<m>.__default` |
| `TestcaseData.EvaluationModelName` | utils/logs_util.py:141 | `fetch_performance_data` finds the model of an evaluation test-case name of the matrix |
| `TestcaseData.LookupLast` | utils/logs_util.py:164-174 | the last pipeline record with a key is the one the merge uses |
| `TestcaseData.LookupNone` | utils/logs_util.py:164-174 | a key is missing exactly when no pipeline record has it |
| `TestcaseData.LookupAppend` | utils/logs_util.py:164-169 | a key assigned by a later part of the comprehension replaces an earlier assignment |
| `TestcaseData.RecordEntriesLookup` | utils/logs_util.py:165-168 | one platform's records give, under that platform only, the last dict record with the name |
| `TestcaseData.FieldEntriesLookup` | utils/logs_util.py:164-169 | the whole comprehension gives the last dict record with the name under a key equal to the platform |
| `TestcaseData.LastNamedIs` | utils/logs_util.py:167-168 | the last dict record of a list with the name is the one with no later namesake |
| `TestcaseData.LastNamedNone` | utils/logs_util.py:167-168 | a list gives no record for a name exactly when none of its dicts has that "TestcaseName" |
| `TestcaseData.LastNamedInIs` | utils/logs_util.py:164-169 | the record kept is the last dict with the name, keys first and then list positions |
| `TestcaseData.LastNamedInNone` | utils/logs_util.py:164-169 | no record is kept exactly when no list under the platform holds a dict with the name |
| `TestcaseData.ValidRecordsLookup` | utils/logs_util.py:164-169 | `valid_records[(p, name)]` is missing exactly when no dict record under key p has that "TestcaseName", and otherwise is the last such record; non-dicts and records without a name never count |
| `TestcaseData.RecordEntriesUnhashable` | utils/logs_util.py:165-168 | a dict record whose name is a list or dict makes the comprehension raise |
| `TestcaseData.FieldEntriesUnhashable` | utils/logs_util.py:164-169 | one unhashable name anywhere in the pipeline data makes the comprehension raise |
| `TestcaseData.UnhashableNameKeepsPlaceholders` | utils/logs_util.py:162-185 | after that exception every cell of the result is its bare placeholder |
| `TestcaseData.WithPerformanceGet` | utils/logs_util.py:177-179 | only the metrics change, and only for a succeeded evaluation |
| `TestcaseData.StoreMetricsGet` | utils/logs_util.py:180-181 | only the metrics change, and only a dict, which becomes its `json.dumps` text |
| `TestcaseData.FinalizeFields` | utils/logs_util.py:175 | after merging, every key other than the metrics has the pipeline record's value if it has one, else the placeholder's |
| `TestcaseData.FinalizeMetrics` | utils/logs_util.py:175-181 | the merged metrics are the fetched data for a succeeded evaluation, else the record's own, stored as text if a dict |
| `TestcaseData.MergeUnmatched` | utils/logs_util.py:173-174 | a placeholder no pipeline record matches stays as it is |
| `TestcaseData.TestcaseDataShape` | utils/logs_util.py:122-187 | the result has every platform in order, each with one record per model and test, or none when the metadata is not a dict |
| `TestcaseData.TestcaseDataRecord` | utils/logs_util.py:122-187 | each cell holds its placeholder merged with the matching pipeline record, or the bare placeholder |
| `TestcaseData.MergePlaceholder` | utils/logs_util.py:172-181 | a placeholder is merged exactly when its key is in `valid_records` |
| `TestcaseData.AsDataAt` | utils/logs_util.py:134 | the result dict holds each platform's list at that platform |
| `Artifacts.Flatten` | utils/artifacts_util.py:133-140 | the processed set never shrinks and holds the path afterwards |
| `Artifacts.FlattenWalk` | utils/artifacts_util.py:151-155 | walking a zip never shrinks the processed set |
| `Artifacts.WalkRaisedStays` | utils/artifacts_util.py:151-155 | once a node of the walk raises, the rest of the walk is not processed |
| `Artifacts.ProcessedFiles.constructor` | utils/artifacts_util.py:66 | the processed set starts empty |
| `Artifacts.ProcessFile` | utils/artifacts_util.py:122-175 | `process_file` returns the flattened list or raises, and updates the set in place |
| `Artifacts.ProcessedOnce` | utils/artifacts_util.py:133-135 | a path processed again with the set its first processing left gives nothing and changes nothing |
| `Artifacts.JsonLeaf` | utils/artifacts_util.py:157-173 | every new `.json` file that passes the embeddings filter contributes exactly `{stem: content}` |
| `Artifacts.JsonBasename` | utils/artifacts_util.py:157-159 | a `.json` path has a `.json` basename |
| `Artifacts.TracedAppend` | utils/artifacts_util.py:150-155 | the lists of two calls sharing the set, one after the other, come from distinct paths |
| `Artifacts.FlattenSources` | utils/artifacts_util.py:133-173 | each fragment of `process_file` comes from a `.json` path of its own that keys it by its stem; the paths are distinct, new to the set before the call and in it after |
| `Artifacts.WalkSourcesTraced` | utils/artifacts_util.py:150-155 | the same over a zip's walk, so a path met twice in the walk contributes once |
| `Artifacts.RepeatedEntry` | utils/artifacts_util.py:133-155 | a zip whose walk yields the same path twice gives what the first entry gives |
| `Artifacts.FlattenFragmentsOk` | utils/artifacts_util.py:122-175 | every fragment is a one-key object; under an "embeddings" artifact its key contains "alpha", however deep the file lies |
| `Artifacts.WalkFragmentsOk` | utils/artifacts_util.py:151-155 | every fragment of a zip's walk has that shape |
| `Artifacts.StemKeepsAlpha` | utils/artifacts_util.py:159-162 | the stem of a `.json` file whose basename contains "alpha" still contains it |
| `Artifacts.RunRaisedStays` | utils/artifacts_util.py:83-93 | once a top-level file raises, the rest of the walk is not processed |
| `Artifacts.RunPrefixStep` | utils/artifacts_util.py:83-88 | one more top-level file extends the run by its list, or ends it |
| `Artifacts.RunSourcesShape` | utils/artifacts_util.py:83-88 | each completed top-level file has one source path per fragment |
| `Artifacts.RunSourcesTraced` | utils/artifacts_util.py:66-88 | over one `process_artifact` run no path contributes a fragment twice, to one list or to two |
| `Artifacts.TracedWiden` | utils/artifacts_util.py:87 | a top-level file that raises leaves the paths of the earlier lists accounted for |
| `Artifacts.LastNonEmpty` | utils/artifacts_util.py:113 | a list written last is non-empty and one of the file's lists |
| `Artifacts.LastNonEmptyIs` | utils/artifacts_util.py:113 | the list at `k` is written last when it is non-empty and every later one is empty |
| `Artifacts.LastNonEmptyAppend` | utils/artifacts_util.py:113 | one more list is written last unless it is empty |
| `Artifacts.LastNonEmptyNone` | utils/artifacts_util.py:113 | nothing is written exactly when every list is empty |
| `Artifacts.WrittenStep` | utils/artifacts_util.py:112-119 | an empty list writes nothing; a non-empty one replaces what earlier files wrote |
| `Artifacts.OutputTouchesOneFile` | utils/artifacts_util.py:116-119 | processing an artifact changes no file but its own `<artifact_name>.json` |
| `Artifacts.ProcessTopFile` | utils/artifacts_util.py:84-87 | one top-level file extends the run, or ends it with the set as it stands |
| `Artifacts.ArtifactsDir.constructor` | utils/artifacts_util.py:114 | the directory holds the given files |
| `Artifacts.ArtifactsDir.WriteCombinedJson` | utils/artifacts_util.py:112-120 | an empty list writes nothing; otherwise `<artifact_name>.json` holds the list and nothing else changes |
| `Artifacts.ArtifactsDir.ProcessAndWrite` | utils/artifacts_util.py:84-88 | one loop iteration processes a file and, unless it raised, writes the list |
| `Artifacts.ArtifactsDir.ProcessArtifact` | utils/artifacts_util.py:56-99 | the directory ends holding the last non-empty list before the walk ended or raised; an artifact that is not a zip changes nothing |

## Left out

- Logging: every `logging` call is left out. Logging has no effect on the results.
- The file system:
  - Opening, reading and writing files, `os.makedirs`, `os.getcwd` and `os.path.exists` become parameters of the model.
  - `zipfile` extraction becomes the given walk of a zip node.
  - The `shutil.rmtree` clean-up is left out.
- `fetch_performance_data` and `process_artifact`: `os.listdir` and `os.walk` order is taken as given.
- The combined file: `json.dump(..., indent=4)` is modelled as the JSON value the file holds, not its text.
- Nested zips: the model takes the walk of a zip node as given. It does not model an extraction that lands inside a directory the outer walk has not yet listed.
- `update_error_info`: `os.listdir(LOGS_DIR)` on a missing directory raises out of the function. The model always has a listing.
- `update_error_info`: a file that is not valid UTF-8 is modelled only as unreadable. It raises, which ends the loop.
- `ErrorInfo.UpdateData`: pipeline data that is a non-empty list is modelled as raising without any change. Python would index the list with each element, which raises for every element that is not an integer.
- `Json`: numbers are integers. Floating point is not modelled.
- `Json`: a dict with a repeated key cannot come out of `json.load`. The model still admits one, and reads it by its last pair.
- Aliasing: records are updated in place in the source and shared between `valid_records` and the pipeline data. The model works on values. Nothing in the core reads a record through a second reference after changing it.
- Unicode digits: Python's `\d` on `str` matches every Unicode decimal digit. The model of the patterns and of `strptime` reads ASCII digits only.
- `strptime`: `%Y` and the two-digit fields take exactly four and two digits here. Python also accepts shorter fields, but the timestamp pattern only hands it text laid out in full.
- `delete_artifact` and the rest of the repository are not part of this model: the HTTP trigger, `function_app.py`, the `database` package and the download of artifacts.
