/**
 * `generate_testcase_data(pipeline_data, metadata, build_id)`: one placeholder
 * record for every platform, model and test kind of the test matrix, grouped by
 * platform; when the pipeline data is truthy, every placeholder for which the
 * pipeline data holds a record with the same platform and test-case name is
 * merged with that record, gets the performance metrics of a succeeded
 * evaluation, and has a metrics dict turned into its JSON text.
 *
 * An exception while the placeholders are built (metadata without `.get`)
 * leaves every platform's list empty; one while the pipeline records are
 * collected leaves the placeholders unmerged. The artifacts directory the
 * metrics are read from is given as its listing.
 */
module TestcaseData {
  import opened Base
  import opened Text
  import opened Json
  import opened Config
  import opened Performance

  const NA: Json := JString("N/A")

  /** The test-case name of one cell of the matrix. */
  function TestcaseName(platform: string, model: string, test: string): string {
    test + "_Stage_" + platform + "." + (if test == "Prediction" then test + "." + model else test + "_" + model + ".__default")
  }

  /** The link to the build results of a run. */
  function RunLink(buildId: string): string {
    "https://devicesasg.visualstudio.com/PerceptiveShell/_build/results?buildId=" + buildId + "&view=results"
  }

  /** The default record of one cell, with the repository and trigger fields taken from the
      metadata and "N/A" where the metadata has no such key. */
  function Placeholder(platform: string, model: string, test: string, meta: Fields, buildId: string): (r: Fields)
    ensures |r| == 16
  {
    [("TestcaseName", JString(TestcaseName(platform, model, test))),
     ("Architecture", JString(platform)),
     ("PipelineRunID", JString(buildId)),
     ("PipelineRunLink", JString(RunLink(buildId))),
     ("Status", JString("Skipped")),
     ("TimeStamp", NA),
     ("AgentName", NA),
     ("ErrorType", NA),
     ("ErrorMessage", NA),
     ("RepoName", GetOr(meta, "repo_name", NA)),
     ("RepoCommit", GetOr(meta, "repo_commit", NA)),
     ("RepoBranch", GetOr(meta, "repo_branch", NA)),
     ("TriggerType", GetOr(meta, "trigger_type", NA)),
     ("TriggeredBy", GetOr(meta, "triggered_by", NA)),
     ("Duration", NA),
     ("PerformanceMetrics", JString("None"))]
  }

  /** The placeholders of one platform, model by model and, within a model, test by test. */
  function PlatformPlaceholders(platform: string, meta: Fields, buildId: string): (r: seq<Fields>)
    ensures |r| == |Models| * |Tests|
  {
    seq(|Models| * |Tests|, k requires 0 <= k < |Models| * |Tests| =>
      Placeholder(platform, Models[k / |Tests|], Tests[k % |Tests|], meta, buildId))
  }

  /** The placeholders of every platform, in the order of the platforms. */
  function Defaults(meta: Fields, buildId: string): (r: seq<seq<Fields>>)
    ensures |r| == |Platforms|
  {
    seq(|Platforms|, p requires 0 <= p < |Platforms| => PlatformPlaceholders(Platforms[p], meta, buildId))
  }

  /** `{platform: [] for platform in platforms}` */
  function NoRecords(): (r: seq<seq<Fields>>)
    ensures |r| == |Platforms| && forall p :: 0 <= p < |r| ==> r[p] == []
  {
    seq(|Platforms|, p => [])
  }

  /** The returned dict: each platform with its list of records. */
  function AsData(lists: seq<seq<Fields>>): Json
    requires |lists| == |Platforms|
  {
    JObject(seq(|Platforms|, p requires 0 <= p < |Platforms| =>
      (Platforms[p], JArray(seq(|lists[p]|, k requires 0 <= k < |lists[p]| => JObject(lists[p][k]))))))
  }

  // ---------------------------------------------------------------------------
  // The records of the pipeline data

  /** One entry of `valid_records`: the key `(platform, record["TestcaseName"])` and the record. */
  datatype Entry = Entry(platform: string, name: Json, record: Fields)

  /** A dict key must be hashable: a list or a dict raises `TypeError`. */
  predicate Hashable(j: Json) {
    !(j.JArray? || j.JObject?)
  }

  /** The entries of one platform's records: dicts with a "TestcaseName"; `None` is the
      exception an unhashable name raises. */
  function RecordEntries(platform: string, items: seq<Json>): Option<seq<Entry>> {
    if items == [] then Some([])
    else
      var head :=
        if !items[0].JObject? then Some([])
        else
          match Get(items[0].fields, "TestcaseName")
          case None => Some([])
          case Some(name) => if Hashable(name) then Some([Entry(platform, name, items[0].fields)]) else None;
      match head
      case None => None
      case Some(h) =>
        match RecordEntries(platform, items[1..])
        case None => None
        case Some(t) => Some(h + t)
  }

  /** `for record in records` over one platform's value: a list yields its records; a dict or a
      string yields strings, none of them a dict; anything else is not iterable. */
  function PlatformEntries(platform: string, v: Json): Option<seq<Entry>> {
    match v
    case JArray(items) => RecordEntries(platform, items)
    case JObject(_) => Some([])
    case JString(_) => Some([])
    case _ => None
  }

  function FieldEntries(fs: Fields): Option<seq<Entry>> {
    if fs == [] then Some([])
    else
      match PlatformEntries(fs[0].0, fs[0].1)
      case None => None
      case Some(h) =>
        match FieldEntries(fs[1..])
        case None => None
        case Some(t) => Some(h + t)
  }

  /** The `valid_records` comprehension, in the order it assigns its keys; `None` when it
      raises (pipeline data without `.items()`, a platform value that is not iterable, an
      unhashable name). */
  function ValidRecords(pipeline: Json): Option<seq<Entry>> {
    match pipeline
    case JObject(fs) => FieldEntries(fs)
    case _ => None
  }

  /** `valid_records[(platform, name)]` when the key is present: a later assignment of a key
      replaces an earlier one. */
  function Lookup(entries: seq<Entry>, platform: string, name: Json): Option<Fields> {
    if entries == [] then None
    else
      var last := entries[|entries| - 1];
      if last.platform == platform && last.name == name then Some(last.record)
      else Lookup(entries[..|entries| - 1], platform, name)
  }

  // ---------------------------------------------------------------------------
  // Merging

  /** `if merged.get("Status") == "succeeded" and "Evaluation" in testcase_name`: the
      performance data of the record's architecture and name become its metrics. */
  function WithPerformance(merged: Fields, name: string, store: Option<seq<Listed>>): Fields {
    if Get(merged, "Status") == Some(JString("succeeded")) && Contains(name, "Evaluation") then
      Put(merged, "PerformanceMetrics", FetchPerformanceData(GetOr(merged, "Architecture", JNull), name, store))
    else merged
  }

  /** Metrics that are a dict are stored as their `json.dumps` text. */
  function StoreMetrics(fetched: Fields): Fields {
    match Get(fetched, "PerformanceMetrics")
    case Some(m) => if m.JObject? then Put(fetched, "PerformanceMetrics", JString(Dumps(m))) else fetched
    case None => fetched
  }

  /** A placeholder merged with its pipeline record: the record's keys win; a succeeded
      evaluation gets the performance data of the artifacts; the metrics are then stored
      as text when they are a dict. */
  function Finalize(placeholder: Fields, actual: Fields, name: string, store: Option<seq<Listed>>): Fields {
    StoreMetrics(WithPerformance(Update(placeholder, actual), name, store))
  }

  /** One record of the merge loop: a placeholder whose key is in `valid_records` is finalized,
      any other stays as it is. */
  function MergeRecord(platform: string, rec: Fields, entries: seq<Entry>, store: Option<seq<Listed>>): Fields {
    match Get(rec, "TestcaseName")
    case Some(JString(name)) =>
      (match Lookup(entries, platform, JString(name))
       case None => rec
       case Some(actual) => Finalize(rec, actual, name, store))
    case _ => rec
  }

  /** Every platform's records after the merge loop. */
  function Merged(lists: seq<seq<Fields>>, entries: seq<Entry>, store: Option<seq<Listed>>): (r: seq<seq<Fields>>)
    requires |lists| == |Platforms|
    ensures |r| == |Platforms|
  {
    seq(|Platforms|, p requires 0 <= p < |Platforms| =>
      seq(|lists[p]|, k requires 0 <= k < |lists[p]| => MergeRecord(Platforms[p], lists[p][k], entries, store)))
  }

  /** What `generate_testcase_data` returns. */
  function TestcaseDataOf(pipeline: Json, metadata: Json, buildId: string, store: Option<seq<Listed>>): Json {
    if !metadata.JObject? then AsData(NoRecords())
    else
      var defaults := Defaults(metadata.fields, buildId);
      if !Truthy(pipeline) then AsData(defaults)
      else
        match ValidRecords(pipeline)
        case None => AsData(defaults)
        case Some(entries) => AsData(Merged(defaults, entries, store))
  }

  // ---------------------------------------------------------------------------
  // The loops

  /** The model and test loops of one platform, appending each placeholder in turn. */
  method PlatformDefaults(platform: string, meta: Fields, buildId: string) returns (recs: seq<Fields>)
    ensures recs == PlatformPlaceholders(platform, meta, buildId)
  {
    ghost var all := PlatformPlaceholders(platform, meta, buildId);
    recs := [];
    for mi := 0 to |Models|
      invariant recs == all[..mi * |Tests|]
    {
      for ti := 0 to |Tests|
        invariant recs == all[..mi * |Tests| + ti]
      {
        PlaceholderStep(platform, meta, buildId, mi, ti);
        recs := recs + [Placeholder(platform, Models[mi], Tests[ti], meta, buildId)];
      }
    }
  }

  /** Appending the placeholder of model `mi` and test `ti` extends the prefix of the
      platform's placeholders by one. */
  lemma PlaceholderStep(platform: string, meta: Fields, buildId: string, mi: nat, ti: nat)
    requires mi < |Models| && ti < |Tests|
    ensures var all := PlatformPlaceholders(platform, meta, buildId);
            var k := mi * |Tests| + ti;
            k < |all| && all[..k] + [Placeholder(platform, Models[mi], Tests[ti], meta, buildId)] == all[..k + 1]
  {
    var all := PlatformPlaceholders(platform, meta, buildId);
    PlaceholderAt(platform, meta, buildId, mi, ti);
    PrefixStep(all, mi * |Tests| + ti);
  }

  lemma PrefixStep<T>(s: seq<T>, n: nat)
    requires n < |s|
    ensures s[..n] + [s[n]] == s[..n + 1]
  {
  }

  /** The placeholder of model `mi` and test `ti` sits at `mi * |Tests| + ti`. */
  lemma PlaceholderAt(platform: string, meta: Fields, buildId: string, mi: nat, ti: nat)
    requires mi < |Models| && ti < |Tests|
    ensures mi * |Tests| + ti < |Models| * |Tests|
    ensures PlatformPlaceholders(platform, meta, buildId)[mi * |Tests| + ti] == Placeholder(platform, Models[mi], Tests[ti], meta, buildId)
  {
    assert |Tests| == 2 && |Models| == 10;
    var k := mi * 2 + ti;
    assert k / 2 == mi && k % 2 == ti;
  }

  /** The merge loop over one platform's records, updating each in place. */
  method MergePlatform(platform: string, recs: seq<Fields>, entries: seq<Entry>, store: Option<seq<Listed>>) returns (out: seq<Fields>)
    ensures |out| == |recs|
    ensures forall k :: 0 <= k < |recs| ==> out[k] == MergeRecord(platform, recs[k], entries, store)
  {
    out := recs;
    for k := 0 to |recs|
      invariant |out| == |recs|
      invariant forall j :: 0 <= j < k ==> out[j] == MergeRecord(platform, recs[j], entries, store)
      invariant forall j :: k <= j < |recs| ==> out[j] == recs[j]
    {
      out := out[k := MergeRecord(platform, out[k], entries, store)];
    }
  }

  /** `generate_testcase_data(pipeline_data, metadata, build_id)` */
  method GenerateTestcaseData(pipeline: Json, metadata: Json, buildId: string, store: Option<seq<Listed>>) returns (data: Json)
    ensures data == TestcaseDataOf(pipeline, metadata, buildId, store)
  {
    var lists := NoRecords();
    if !metadata.JObject? {
      return AsData(lists);
    }
    for p := 0 to |Platforms|
      invariant |lists| == |Platforms|
      invariant forall q :: 0 <= q < p ==> lists[q] == PlatformPlaceholders(Platforms[q], metadata.fields, buildId)
    {
      var recs := PlatformDefaults(Platforms[p], metadata.fields, buildId);
      lists := lists[p := recs];
    }
    assert lists == Defaults(metadata.fields, buildId);
    if Truthy(pipeline) {
      var valid := ValidRecords(pipeline);
      if valid.Some? {
        ghost var defaults := lists;
        for p := 0 to |Platforms|
          invariant |lists| == |Platforms|
          invariant forall q :: 0 <= q < p ==> lists[q] == Merged(defaults, valid.value, store)[q]
          invariant forall q :: p <= q < |Platforms| ==> lists[q] == defaults[q]
        {
          var merged := MergePlatform(Platforms[p], lists[p], valid.value, store);
          lists := lists[p := merged];
        }
        assert lists == Merged(defaults, valid.value, store);
      }
    }
    return AsData(lists);
  }

  // ---------------------------------------------------------------------------
  // What `generate_testcase_data` promises

  /** The sixteen keys of a placeholder are distinct, so each of them reads back its own value. */
  lemma PlaceholderGet(platform: string, model: string, test: string, meta: Fields, buildId: string, i: nat)
    requires i < 16
    ensures var r := Placeholder(platform, model, test, meta, buildId);
            Get(r, r[i].0) == Some(r[i].1)
  {
    var r := Placeholder(platform, model, test, meta, buildId);
    GetLast(r, i, r[i].0);
  }

  lemma NameStartsWithTest(platform: string, model: string, test: string)
    requires test in Tests
    ensures |TestcaseName(platform, model, test)| > 0 && TestcaseName(platform, model, test)[0] == test[0]
  {
  }

  /** Within a platform, different cells of the matrix have different test-case names, so
      every placeholder has a key of its own. */
  lemma NamesDistinct(platform: string, m1: string, t1: string, m2: string, t2: string)
    requires t1 in Tests && t2 in Tests
    requires TestcaseName(platform, m1, t1) == TestcaseName(platform, m2, t2)
    ensures m1 == m2 && t1 == t2
  {
    var n1 := TestcaseName(platform, m1, t1);
    var n2 := TestcaseName(platform, m2, t2);
    NameStartsWithTest(platform, m1, t1);
    NameStartsWithTest(platform, m2, t2);
    assert t1 == t2;
    var head := t1 + "_Stage_" + platform + "." + t1 + (if t1 == "Prediction" then "." else "_");
    var tail := if t1 == "Prediction" then "" else ".__default";
    assert n1 == head + m1 + tail;
    assert n2 == head + m2 + tail;
    assert |m1| == |m2|;
    assert m1 == n1[|head|..|head| + |m1|];
    assert m2 == n2[|head|..|head| + |m2|];
  }

  lemma PlainPlatform(p: nat)
    requires p < |Platforms|
    ensures '.' !in Platforms[p]
  {
  }

  lemma PlainModel(mi: nat)
    requires mi < |Models|
    ensures '.' !in Models[mi] && 'E' !in Models[mi]
  {
  }

  lemma EvaluationName(platform: string, model: string)
    ensures TestcaseName(platform, model, "Evaluation") == "Evaluation_Stage_" + platform + ".Evaluation_" + model + ".__default"
  {
    assert "Evaluation" != "Prediction" by { assert "Evaluation"[0] != "Prediction"[0]; }
  }

  /** The name of an evaluation placeholder leads `fetch_performance_data` to its own model. */
  lemma EvaluationModelName(p: nat, mi: nat)
    requires p < |Platforms| && mi < |Models|
    ensures '.' in TestcaseName(Platforms[p], Models[mi], "Evaluation")
    ensures ModelName(TestcaseName(Platforms[p], Models[mi], "Evaluation")) == Models[mi]
  {
    var platform, model := Platforms[p], Models[mi];
    PlainPlatform(p);
    PlainModel(mi);
    MissingFirstChar(model, "Evaluation_");
    ModelNameOfEvaluation(platform, model);
    EvaluationName(platform, model);
  }

  /** The entry a key was last assigned wins. */
  lemma {:induction false} LookupLast(entries: seq<Entry>, platform: string, name: Json, i: nat)
    requires i < |entries| && entries[i].platform == platform && entries[i].name == name
    requires forall j :: i < j < |entries| ==> !(entries[j].platform == platform && entries[j].name == name)
    ensures Lookup(entries, platform, name) == Some(entries[i].record)
    decreases |entries|
  {
    if i < |entries| - 1 {
      LookupLast(entries[..|entries| - 1], platform, name, i);
    }
  }

  /** The key is missing exactly when no entry has it. */
  lemma {:induction false} LookupNone(entries: seq<Entry>, platform: string, name: Json)
    ensures Lookup(entries, platform, name).None? <==>
            forall j :: 0 <= j < |entries| ==> !(entries[j].platform == platform && entries[j].name == name)
    decreases |entries|
  {
    if entries != [] {
      var init := entries[..|entries| - 1];
      LookupNone(init, platform, name);
      assert forall j :: 0 <= j < |init| ==> init[j] == entries[j];
    }
  }

  /** Metrics as stored: a dict becomes its `json.dumps` text. */
  function AsStored(v: Json): Json {
    if v.JObject? then JString(Dumps(v)) else v
  }

  /** Only the metrics can change when the performance data is fetched. */
  lemma WithPerformanceGet(merged: Fields, name: string, store: Option<seq<Listed>>, k: string)
    ensures Get(WithPerformance(merged, name, store), k) ==
            if k == "PerformanceMetrics" && Get(merged, "Status") == Some(JString("succeeded")) && Contains(name, "Evaluation")
            then Some(FetchPerformanceData(GetOr(merged, "Architecture", JNull), name, store))
            else Get(merged, k)
  {
    GetPut(merged, "PerformanceMetrics", FetchPerformanceData(GetOr(merged, "Architecture", JNull), name, store), k);
  }

  /** Storing the metrics touches no other key and leaves no dict behind. */
  lemma StoreMetricsGet(fetched: Fields, k: string)
    ensures Get(StoreMetrics(fetched), k) ==
            if k == "PerformanceMetrics" && Get(fetched, k).Some? then Some(AsStored(Get(fetched, k).value))
            else Get(fetched, k)
  {
    var m := Get(fetched, "PerformanceMetrics");
    if m.Some? && m.value.JObject? {
      GetPut(fetched, "PerformanceMetrics", JString(Dumps(m.value)), k);
    }
  }

  /** Merging is shallow: every key of the pipeline record takes its value, every other key
      keeps the placeholder's, except the metrics. */
  lemma FinalizeFields(placeholder: Fields, actual: Fields, name: string, store: Option<seq<Listed>>, k: string)
    requires k != "PerformanceMetrics"
    ensures Get(Finalize(placeholder, actual, name, store), k) == if HasKey(actual, k) then Get(actual, k) else Get(placeholder, k)
  {
    var merged := Update(placeholder, actual);
    GetUpdate(placeholder, actual, k);
    WithPerformanceGet(merged, name, store, k);
    StoreMetricsGet(WithPerformance(merged, name, store), k);
  }

  /** The metrics of a merged record: for a succeeded evaluation (by the record's status, or
      the placeholder's when the record has none) the performance data of its architecture and
      name, otherwise the record's metrics or the placeholder's; a dict is stored as its text,
      so the metrics are never a dict. */
  lemma FinalizeMetrics(placeholder: Fields, actual: Fields, name: string, store: Option<seq<Listed>>)
    requires HasKey(placeholder, "PerformanceMetrics")
    ensures var status := if HasKey(actual, "Status") then Get(actual, "Status") else Get(placeholder, "Status");
            var arch := if HasKey(actual, "Architecture") then Get(actual, "Architecture") else Get(placeholder, "Architecture");
            var own := if HasKey(actual, "PerformanceMetrics") then Get(actual, "PerformanceMetrics") else Get(placeholder, "PerformanceMetrics");
            var metrics :=
              if status == Some(JString("succeeded")) && Contains(name, "Evaluation") then
                FetchPerformanceData(arch.GetOr(JNull), name, store)
              else own.value;
            Get(Finalize(placeholder, actual, name, store), "PerformanceMetrics") == Some(AsStored(metrics)) &&
            !AsStored(metrics).JObject?
  {
    var merged := Update(placeholder, actual);
    GetUpdate(placeholder, actual, "Status");
    GetUpdate(placeholder, actual, "Architecture");
    GetUpdate(placeholder, actual, "PerformanceMetrics");
    WithPerformanceGet(merged, name, store, "PerformanceMetrics");
    StoreMetricsGet(WithPerformance(merged, name, store), "PerformanceMetrics");
  }

  /** A placeholder no pipeline record shares a key with stays as it is. */
  lemma MergeUnmatched(platform: string, rec: Fields, entries: seq<Entry>, store: Option<seq<Listed>>, name: string)
    requires Get(rec, "TestcaseName") == Some(JString(name))
    requires forall j :: 0 <= j < |entries| ==> !(entries[j].platform == platform && entries[j].name == JString(name))
    ensures MergeRecord(platform, rec, entries, store) == rec
  {
    LookupNone(entries, platform, JString(name));
  }

  /** The shape of the result: the platforms in order, each with one record per model and
      test when the metadata is a dict, and none otherwise. */
  lemma TestcaseDataShape(pipeline: Json, metadata: Json, buildId: string, store: Option<seq<Listed>>)
    ensures var out := TestcaseDataOf(pipeline, metadata, buildId, store);
            out.JObject? && |out.fields| == |Platforms| &&
            forall p :: 0 <= p < |Platforms| ==>
              out.fields[p].0 == Platforms[p] && out.fields[p].1.JArray? &&
              |out.fields[p].1.items| == if metadata.JObject? then |Models| * |Tests| else 0
  {
  }

  /** The record of platform `p`, model `mi` and test `ti`: the placeholder merged with the
      pipeline record of the same platform and name when the pipeline data is truthy, its
      records can be collected and one of them has that key; the placeholder otherwise. */
  lemma TestcaseDataRecord(pipeline: Json, metadata: Json, buildId: string, store: Option<seq<Listed>>, p: nat, mi: nat, ti: nat)
    requires metadata.JObject? && p < |Platforms| && mi < |Models| && ti < |Tests|
    ensures var out := TestcaseDataOf(pipeline, metadata, buildId, store);
            var k := mi * |Tests| + ti;
            var ph := Placeholder(Platforms[p], Models[mi], Tests[ti], metadata.fields, buildId);
            var name := TestcaseName(Platforms[p], Models[mi], Tests[ti]);
            var valid := ValidRecords(pipeline);
            out.JObject? && p < |out.fields| && out.fields[p].1.JArray? && k < |out.fields[p].1.items| &&
            out.fields[p].1.items[k] ==
              JObject(if Truthy(pipeline) && valid.Some? && Lookup(valid.value, Platforms[p], JString(name)).Some?
                      then Finalize(ph, Lookup(valid.value, Platforms[p], JString(name)).value, name, store)
                      else ph)
  {
    var k := mi * |Tests| + ti;
    var defaults := Defaults(metadata.fields, buildId);
    var ph := Placeholder(Platforms[p], Models[mi], Tests[ti], metadata.fields, buildId);
    PlaceholderAt(Platforms[p], metadata.fields, buildId, mi, ti);
    assert defaults[p][k] == ph;
    var valid := ValidRecords(pipeline);
    if Truthy(pipeline) && valid.Some? {
      var merged := Merged(defaults, valid.value, store);
      assert merged[p][k] == MergeRecord(Platforms[p], ph, valid.value, store);
      MergePlaceholder(Platforms[p], Models[mi], Tests[ti], metadata.fields, buildId, valid.value, store);
      AsDataAt(merged, p, k);
    } else {
      AsDataAt(defaults, p, k);
    }
  }

  /** A placeholder is finalized with the pipeline record of its own platform and name, when
      there is one. */
  lemma MergePlaceholder(platform: string, model: string, test: string, meta: Fields, buildId: string,
                         entries: seq<Entry>, store: Option<seq<Listed>>)
    ensures var ph := Placeholder(platform, model, test, meta, buildId);
            var name := TestcaseName(platform, model, test);
            MergeRecord(platform, ph, entries, store) ==
              if Lookup(entries, platform, JString(name)).Some?
              then Finalize(ph, Lookup(entries, platform, JString(name)).value, name, store)
              else ph
  {
    PlaceholderGet(platform, model, test, meta, buildId, 0);
  }

  /** Record `k` of platform `p` in the returned dict. */
  lemma AsDataAt(lists: seq<seq<Fields>>, p: nat, k: nat)
    requires |lists| == |Platforms| && p < |Platforms| && k < |lists[p]|
    ensures var out := AsData(lists);
            out.JObject? && p < |out.fields| && out.fields[p].1.JArray? && k < |out.fields[p].1.items| &&
            out.fields[p].1.items[k] == JObject(lists[p][k])
  {
  }

  // ---------------------------------------------------------------------------
  // `valid_records` against the pipeline data

  /** A record `valid_records` keeps under the name: a dict whose "TestcaseName" is `name`. */
  predicate Named(record: Json, name: Json) {
    record.JObject? && Get(record.fields, "TestcaseName") == Some(name)
  }

  /** Record `i` of the list under the `q`-th key of the pipeline data, a key equal to
      `platform`, is a dict named `name`. */
  predicate NamedAt(fs: Fields, q: nat, i: nat, platform: string, name: Json) {
    q < |fs| && fs[q].0 == platform && fs[q].1.JArray? && i < |fs[q].1.items| && Named(fs[q].1.items[i], name)
  }

  /** The last record of a list with the name. */
  function LastNamed(items: seq<Json>, name: Json): Option<Fields> {
    if items == [] then None
    else
      var later := LastNamed(items[1..], name);
      if later.Some? then later else if Named(items[0], name) then Some(items[0].fields) else None
  }

  /** The last record with the name under a key equal to `platform`. */
  function LastNamedIn(fs: Fields, platform: string, name: Json): Option<Fields> {
    if fs == [] then None
    else
      var later := LastNamedIn(fs[1..], platform, name);
      if later.Some? then later
      else if fs[0].0 == platform && fs[0].1.JArray? then LastNamed(fs[0].1.items, name)
      else None
  }

  /** Looking up in two runs of assignments: the later run wins when it has the key. */
  lemma {:induction false} LookupAppend(h: seq<Entry>, t: seq<Entry>, platform: string, name: Json)
    ensures Lookup(h + t, platform, name) == if Lookup(t, platform, name).Some? then Lookup(t, platform, name) else Lookup(h, platform, name)
    decreases |t|
  {
    if t == [] {
      assert h + t == h;
    } else {
      var t0 := t[..|t| - 1];
      assert (h + t)[..|h + t| - 1] == h + t0;
      LookupAppend(h, t0, platform, name);
    }
  }

  lemma {:induction false} RecordEntriesLookup(platform: string, items: seq<Json>, es: seq<Entry>, p: string, name: Json)
    requires RecordEntries(platform, items) == Some(es)
    ensures Lookup(es, p, name) == if p == platform then LastNamed(items, name) else None
    decreases |items|
  {
    if items != [] {
      var t := RecordEntries(platform, items[1..]).value;
      var h := es[..|es| - |t|];
      assert es == h + t;
      RecordEntriesLookup(platform, items[1..], t, p, name);
      LookupAppend(h, t, p, name);
      if h != [] {
        assert h[..0] == [];
      }
    }
  }

  lemma {:induction false} FieldEntriesLookup(fs: Fields, es: seq<Entry>, p: string, name: Json)
    requires FieldEntries(fs) == Some(es)
    ensures Lookup(es, p, name) == LastNamedIn(fs, p, name)
    decreases |fs|
  {
    if fs != [] {
      var h := PlatformEntries(fs[0].0, fs[0].1).value;
      var t := FieldEntries(fs[1..]).value;
      assert es == h + t;
      FieldEntriesLookup(fs[1..], t, p, name);
      LookupAppend(h, t, p, name);
      if fs[0].1.JArray? {
        RecordEntriesLookup(fs[0].0, fs[0].1.items, h, p, name);
      }
    }
  }

  lemma {:induction false} LastNamedIs(items: seq<Json>, i: nat, name: Json)
    requires i < |items| && Named(items[i], name)
    requires forall i' :: i < i' < |items| ==> !Named(items[i'], name)
    ensures LastNamed(items, name) == Some(items[i].fields)
    decreases |items|
  {
    if i > 0 {
      LastNamedIs(items[1..], i - 1, name);
    } else {
      LastNamedNone(items[1..], name);
    }
  }

  lemma {:induction false} LastNamedNone(items: seq<Json>, name: Json)
    ensures LastNamed(items, name).None? <==> forall i :: 0 <= i < |items| ==> !Named(items[i], name)
    decreases |items|
  {
    if items != [] {
      LastNamedNone(items[1..], name);
      assert forall i :: 0 < i < |items| ==> items[1..][i - 1] == items[i];
    }
  }

  lemma {:induction false} LastNamedInIs(fs: Fields, q: nat, i: nat, platform: string, name: Json)
    requires NamedAt(fs, q, i, platform, name)
    requires forall q': nat, i': nat :: NamedAt(fs, q', i', platform, name) ==> q' < q || (q' == q && i' <= i)
    ensures LastNamedIn(fs, platform, name) == Some(fs[q].1.items[i].fields)
    decreases |fs|
  {
    if q > 0 {
      forall q': nat, i': nat | NamedAt(fs[1..], q', i', platform, name) ensures q' < q - 1 || (q' == q - 1 && i' <= i) {
        assert NamedAt(fs, q' + 1, i', platform, name);
      }
      LastNamedInIs(fs[1..], q - 1, i, platform, name);
    } else {
      forall q': nat, i': nat ensures !NamedAt(fs[1..], q', i', platform, name) {
        assert NamedAt(fs[1..], q', i', platform, name) <==> NamedAt(fs, q' + 1, i', platform, name);
      }
      LastNamedInNone(fs[1..], platform, name);
      forall i' | i < i' < |fs[0].1.items| ensures !Named(fs[0].1.items[i'], name) {
        assert !NamedAt(fs, 0, i', platform, name);
      }
      LastNamedIs(fs[0].1.items, i, name);
    }
  }

  lemma {:induction false} LastNamedInNone(fs: Fields, platform: string, name: Json)
    ensures LastNamedIn(fs, platform, name).None? <==> forall q: nat, i: nat :: !NamedAt(fs, q, i, platform, name)
    decreases |fs|
  {
    if fs != [] {
      LastNamedInNone(fs[1..], platform, name);
      assert forall q: nat, i: nat :: NamedAt(fs[1..], q, i, platform, name) <==> NamedAt(fs, q + 1, i, platform, name);
      if fs[0].0 == platform && fs[0].1.JArray? {
        LastNamedNone(fs[0].1.items, name);
      }
      var none := forall q: nat, i: nat :: !NamedAt(fs, q, i, platform, name);
      if LastNamedIn(fs, platform, name).None? {
        forall q: nat, i: nat ensures !NamedAt(fs, q, i, platform, name) {
          if q > 0 {
            assert !NamedAt(fs[1..], q - 1, i, platform, name);
          }
        }
      }
      if none {
        forall q: nat, i: nat ensures !NamedAt(fs[1..], q, i, platform, name) {
          assert !NamedAt(fs, q + 1, i, platform, name);
        }
        if fs[0].0 == platform && fs[0].1.JArray? {
          forall i | 0 <= i < |fs[0].1.items| ensures !Named(fs[0].1.items[i], name) {
            assert !NamedAt(fs, 0, i, platform, name);
          }
        }
      }
    }
  }

  /** The pipeline record `valid_records` holds for a platform and a name: none exactly when no
      list under a key equal to the platform holds a dict with that "TestcaseName" (records that
      are not dicts, or have no "TestcaseName", never count), and otherwise the last such dict,
      the pipeline data's keys and then each list taken in order. */
  lemma ValidRecordsLookup(pipeline: Json, entries: seq<Entry>, platform: string, name: Json, q: nat, i: nat)
    requires ValidRecords(pipeline) == Some(entries)
    ensures pipeline.JObject?
    ensures Lookup(entries, platform, name).None? <==> forall q': nat, i': nat :: !NamedAt(pipeline.fields, q', i', platform, name)
    ensures NamedAt(pipeline.fields, q, i, platform, name) &&
            (forall q': nat, i': nat :: NamedAt(pipeline.fields, q', i', platform, name) ==> q' < q || (q' == q && i' <= i)) ==>
            Lookup(entries, platform, name) == Some(pipeline.fields[q].1.items[i].fields)
  {
    FieldEntriesLookup(pipeline.fields, entries, platform, name);
    LastNamedInNone(pipeline.fields, platform, name);
    if NamedAt(pipeline.fields, q, i, platform, name) &&
       (forall q': nat, i': nat :: NamedAt(pipeline.fields, q', i', platform, name) ==> q' < q || (q' == q && i' <= i)) {
      LastNamedInIs(pipeline.fields, q, i, platform, name);
    }
  }

  lemma {:induction false} RecordEntriesUnhashable(platform: string, items: seq<Json>, i: nat)
    requires i < |items| && items[i].JObject? && Get(items[i].fields, "TestcaseName").Some?
    requires !Hashable(Get(items[i].fields, "TestcaseName").value)
    ensures RecordEntries(platform, items) == None
    decreases |items|
  {
    if i > 0 {
      RecordEntriesUnhashable(platform, items[1..], i - 1);
    }
  }

  lemma {:induction false} FieldEntriesUnhashable(fs: Fields, q: nat, i: nat)
    requires q < |fs| && fs[q].1.JArray? && i < |fs[q].1.items|
    requires fs[q].1.items[i].JObject? && Get(fs[q].1.items[i].fields, "TestcaseName").Some?
    requires !Hashable(Get(fs[q].1.items[i].fields, "TestcaseName").value)
    ensures FieldEntries(fs) == None
    decreases |fs|
  {
    if q > 0 {
      FieldEntriesUnhashable(fs[1..], q - 1, i);
    } else {
      RecordEntriesUnhashable(fs[0].0, fs[0].1.items, i);
    }
  }

  /** One dict record whose "TestcaseName" is a list or a dict makes `valid_records` raise, and
      every cell of the result stays its bare placeholder. */
  lemma UnhashableNameKeepsPlaceholders(pipeline: Json, metadata: Json, buildId: string, store: Option<seq<Listed>>,
                                        q: nat, i: nat, p: nat, mi: nat, ti: nat)
    requires pipeline.JObject? && q < |pipeline.fields| && pipeline.fields[q].1.JArray? && i < |pipeline.fields[q].1.items|
    requires pipeline.fields[q].1.items[i].JObject? && Get(pipeline.fields[q].1.items[i].fields, "TestcaseName").Some?
    requires !Hashable(Get(pipeline.fields[q].1.items[i].fields, "TestcaseName").value)
    requires metadata.JObject? && p < |Platforms| && mi < |Models| && ti < |Tests|
    ensures ValidRecords(pipeline) == None
    ensures var out := TestcaseDataOf(pipeline, metadata, buildId, store);
            var k := mi * |Tests| + ti;
            out.JObject? && p < |out.fields| && out.fields[p].1.JArray? && k < |out.fields[p].1.items| &&
            out.fields[p].1.items[k] == JObject(Placeholder(Platforms[p], Models[mi], Tests[ti], metadata.fields, buildId))
  {
    FieldEntriesUnhashable(pipeline.fields, q, i);
    TestcaseDataRecord(pipeline, metadata, buildId, store, p, mi, ti);
  }
}
