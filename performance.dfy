/**
 * `fetch_performance_data(architecture, testcase_name)`: the model name is the
 * second dot-separated part of the test-case name with every "Evaluation_"
 * removed, and the result is what `json.load` reads from the first `.json`
 * file of the artifacts directory whose name contains both the architecture
 * and the model name. Every failure gives `{}`.
 *
 * The directory is given as its listing, in `os.listdir` order; `None` is a
 * directory that does not exist.
 */
module Performance {
  import opened Base
  import opened Text
  import opened Json

  /** A file of the artifacts directory: its name and what `json.load` makes of it
      (`None`: the file does not hold valid JSON). */
  datatype Listed = Listed(name: string, content: Option<Json>)

  /** A name holding a dot splits into at least two parts. */
  lemma SplitOnDot(s: string)
    requires '.' in s
    ensures |Split(s, '.')| >= 2
  {
    var i := IndexOf(s, '.');
    assert i.Some?;
    SplitAtFirst(s, '.', i.value);
  }

  /** The model name: the second dot-separated part of the test-case name, with every
      occurrence of "Evaluation_" removed. */
  function ModelName(testcaseName: string): string
    requires '.' in testcaseName
  {
    SplitOnDot(testcaseName);
    ReplaceAll(Split(testcaseName, '.')[1], "Evaluation_", "")
  }

  /** The file is a `.json` file whose name contains the architecture and the model name. */
  predicate Qualifies(f: Listed, architecture: string, model: string) {
    EndsWith(f.name, ".json") && Contains(f.name, architecture) && Contains(f.name, model)
  }

  /** The listing loop from position `i` on: the first qualifying file's content, `{}` when
      none qualifies or that file does not parse. An architecture that is not a string makes
      `in` raise `TypeError` at the first `.json` file, which also gives `{}`. */
  function Search(files: seq<Listed>, architecture: Json, model: string, i: nat): Json
    decreases |files| - i
  {
    if i >= |files| then EmptyObject
    else if EndsWith(files[i].name, ".json") then
      match architecture
      case JString(a) =>
        if Contains(files[i].name, a) && Contains(files[i].name, model) then files[i].content.GetOr(EmptyObject)
        else Search(files, architecture, model, i + 1)
      case _ => EmptyObject
    else Search(files, architecture, model, i + 1)
  }

  /** `fetch_performance_data(architecture, testcase_name)` */
  function FetchPerformanceData(architecture: Json, testcaseName: string, listing: Option<seq<Listed>>): (r: Json)
    ensures '.' !in testcaseName ==> r == EmptyObject
    ensures listing.None? ==> r == EmptyObject
  {
    if '.' !in testcaseName then EmptyObject
    else
      match listing
      case None => EmptyObject
      case Some(files) => Search(files, architecture, ModelName(testcaseName), 0)
  }

  /** The first qualifying file decides the result; files after it are never consulted. */
  lemma {:induction false} SearchFindsFirst(files: seq<Listed>, a: string, model: string, i: nat, k: nat)
    requires i <= k < |files| && Qualifies(files[k], a, model)
    requires forall j :: i <= j < k ==> !Qualifies(files[j], a, model)
    ensures Search(files, JString(a), model, i) == files[k].content.GetOr(EmptyObject)
    decreases k - i
  {
    if i < k {
      SearchFindsFirst(files, a, model, i + 1, k);
    }
  }

  /** Without a qualifying file the result is `{}`. */
  lemma {:induction false} SearchNoMatch(files: seq<Listed>, a: string, model: string, i: nat)
    requires forall j :: i <= j < |files| ==> !Qualifies(files[j], a, model)
    ensures Search(files, JString(a), model, i) == EmptyObject
    decreases |files| - i
  {
    if i < |files| {
      SearchNoMatch(files, a, model, i + 1);
    }
  }

  /** An architecture that is not a string always gives `{}`. */
  lemma {:induction false} SearchNonString(files: seq<Listed>, architecture: Json, model: string, i: nat)
    requires !architecture.JString?
    ensures Search(files, architecture, model, i) == EmptyObject
    decreases |files| - i
  {
    if i < |files| && !EndsWith(files[i].name, ".json") {
      SearchNonString(files, architecture, model, i + 1);
    }
  }

  /** The whole lookup: for a string architecture, the content of the first qualifying file
      of the listing, and `{}` when there is none. */
  lemma FetchFirstMatch(a: string, testcaseName: string, files: seq<Listed>, k: nat)
    requires '.' in testcaseName
    requires k < |files| && Qualifies(files[k], a, ModelName(testcaseName))
    requires forall j :: 0 <= j < k ==> !Qualifies(files[j], a, ModelName(testcaseName))
    ensures FetchPerformanceData(JString(a), testcaseName, Some(files)) == files[k].content.GetOr(EmptyObject)
  {
    SearchFindsFirst(files, a, ModelName(testcaseName), 0, k);
  }

  lemma FetchNoMatch(a: string, testcaseName: string, files: seq<Listed>)
    requires '.' in testcaseName
    requires forall j :: 0 <= j < |files| ==> !Qualifies(files[j], a, ModelName(testcaseName))
    ensures FetchPerformanceData(JString(a), testcaseName, Some(files)) == EmptyObject
  {
    SearchNoMatch(files, a, ModelName(testcaseName), 0);
  }

  /** The second dot-separated part of `head.part.tail`, for a head and a part free of dots. */
  lemma SecondPart(head: string, part: string, tail: string)
    requires '.' !in head && '.' !in part
    ensures '.' in head + "." + part + "." + tail
    ensures Split(head + "." + part + "." + tail, '.')[1] == part
  {
    var name := head + "." + part + "." + tail;
    assert name == head + ['.'] + (part + ['.'] + tail);
    assert name[|head|] == '.';
    SplitAfter(head, '.', part + ['.'] + tail);
    SplitAfter(part, '.', tail);
  }

  /** Removing "Evaluation_" from `Evaluation_<m>` leaves `m` when `m` does not contain it. */
  lemma DropEvaluation(model: string)
    requires !Contains(model, "Evaluation_")
    ensures ReplaceAll("Evaluation_" + model, "Evaluation_", "") == model
  {
    var part := "Evaluation_" + model;
    assert part[..11] == "Evaluation_" && part[11..] == model;
    ReplaceAbsent(model, "Evaluation_", "");
  }

  /** The model name of an evaluation test-case name `Evaluation_Stage_<p>.Evaluation_<m>.__default`
      is `m`, for a platform and a model free of dots and a model not containing "Evaluation_". */
  lemma ModelNameOfEvaluation(platform: string, model: string)
    requires '.' !in platform && '.' !in model && !Contains(model, "Evaluation_")
    ensures '.' in "Evaluation_Stage_" + platform + ".Evaluation_" + model + ".__default"
    ensures ModelName("Evaluation_Stage_" + platform + ".Evaluation_" + model + ".__default") == model
  {
    var head := "Evaluation_Stage_" + platform;
    var part := "Evaluation_" + model;
    assert '.' !in "Evaluation_Stage_" && '.' !in "Evaluation_";
    assert '.' !in head && '.' !in part;
    assert "Evaluation_Stage_" + platform + ".Evaluation_" + model + ".__default" == head + "." + part + "." + "__default";
    SecondPart(head, part, "__default");
    DropEvaluation(model);
  }
}
