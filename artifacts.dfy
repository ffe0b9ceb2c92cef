/**
 * `process_file`, `process_artifact` and `write_combined_json_to_file`: an
 * extracted artifact is walked file by file; each file is flattened into a
 * list of one-key JSON objects `{stem: content}`, nested zips are flattened
 * in walk order, a shared set of processed paths makes every path count at
 * most once, and after each top-level file that gives a non-empty list,
 * `<artifact_name>.json` in the artifacts directory is rewritten with that list.
 *
 * The file system is a tree: a zip node holds the nodes `os.walk` yields over
 * the directory it is extracted to, each directory's files before its
 * subdirectories. The artifacts directory is a map from file name to the JSON
 * value the file holds.
 */
module Artifacts {
  import opened Base
  import opened Text
  import opened Json

  /** What a path holds. */
  datatype Content =
    | Directory
    | Archive(walk: seq<Node>)  // a zip file, with the nodes of its extraction in walk order
    | Document(value: Json)     // a file `json.load` reads
    | Opaque                    // any other file

  datatype Node = Node(path: string, content: Content)

  /** What `process_file` gives: its list, or an exception that escapes it. Opening a
      directory, a `.zip` path that is not a zip file and a `.json` path that does not
      hold JSON all raise. */
  datatype Outcome = Done(fragments: seq<Json>) | Raised

  /** The outcome together with the processed paths afterwards. */
  datatype Step = Step(outcome: Outcome, seen: set<string>)

  /** `{file_name: content}` with the file name the basename minus its extension. */
  function Fragment(path: string, value: Json): Json {
    JObject([(Stem(path), value)])
  }

  /** For an "embeddings" artifact only files whose basename contains "alpha" are read. */
  predicate Filtered(artifactName: string, path: string) {
    Contains(artifactName, "embeddings") && !Contains(Basename(path), "alpha")
  }

  /** `process_file(n.path, artifact_name, processed_files)` with `seen` the set before the
      call; the set never shrinks and holds the path afterwards. */
  function Flatten(n: Node, artifactName: string, seen: set<string>): (r: Step)
    ensures seen <= r.seen && n.path in r.seen
    decreases n, 1
  {
    if n.path in seen then Step(Done([]), seen)
    else
      var seen' := seen + {n.path};
      if EndsWith(n.path, ".zip") then
        if n.content.Archive? then FlattenWalk(n, artifactName, seen', |n.content.walk|)
        else Step(Raised, seen')
      else if EndsWith(n.path, ".json") then
        if Filtered(artifactName, n.path) then Step(Done([]), seen')
        else if n.content.Document? then Step(Done([Fragment(n.path, n.content.value)]), seen')
        else Step(Raised, seen')
      else Step(Done([]), seen')
  }

  /** The first `i` nodes of a zip's walk, each flattened with the set the previous one left,
      their lists concatenated; the first exception ends the walk. */
  function FlattenWalk(zip: Node, artifactName: string, seen: set<string>, i: nat): (r: Step)
    requires zip.content.Archive? && i <= |zip.content.walk|
    ensures seen <= r.seen
    decreases zip, 0, i
  {
    if i == 0 then Step(Done([]), seen)
    else
      var prev := FlattenWalk(zip, artifactName, seen, i - 1);
      if prev.outcome.Raised? then prev
      else
        var entry := zip.content.walk[i - 1];
        assert entry in zip.content.walk;
        var next := Flatten(entry, artifactName, prev.seen);
        if next.outcome.Raised? then next
        else Step(Done(prev.outcome.fragments + next.outcome.fragments), next.seen)
  }

  /** Once a node of the walk raises, the rest of the walk is not processed. */
  lemma {:induction false} WalkRaisedStays(zip: Node, artifactName: string, seen: set<string>, i: nat, j: nat)
    requires zip.content.Archive? && i <= j <= |zip.content.walk|
    requires FlattenWalk(zip, artifactName, seen, i).outcome.Raised?
    ensures FlattenWalk(zip, artifactName, seen, j) == FlattenWalk(zip, artifactName, seen, i)
    decreases j
  {
    if j > i {
      WalkRaisedStays(zip, artifactName, seen, i, j - 1);
    }
  }

  /** The paths `process_file` has seen: the set object shared by one run. */
  class ProcessedFiles {
    var paths: set<string>

    constructor()
      ensures paths == {}
    {
      paths := {};
    }
  }

  /** `process_file`: skip a path already processed, otherwise record it, then flatten a zip
      entry by entry, read a `.json` file, or ignore anything else. */
  method ProcessFile(n: Node, artifactName: string, processed: ProcessedFiles) returns (outcome: Outcome)
    modifies processed
    ensures Step(outcome, processed.paths) == Flatten(n, artifactName, old(processed.paths))
    decreases n, 1
  {
    if n.path in processed.paths {
      return Done([]);
    }
    var combined: seq<Json> := [];
    processed.paths := processed.paths + {n.path};
    if EndsWith(n.path, ".zip") {
      if !n.content.Archive? {
        return Raised;
      }
      ghost var start := processed.paths;
      var walk := n.content.walk;
      var i := 0;
      while i < |walk|
        invariant 0 <= i <= |walk|
        invariant Step(Done(combined), processed.paths) == FlattenWalk(n, artifactName, start, i)
      {
        assert walk[i] in walk;
        var r := ProcessFile(walk[i], artifactName, processed);
        if r.Raised? {
          WalkRaisedStays(n, artifactName, start, i + 1, |walk|);
          return Raised;
        }
        combined := combined + r.fragments;
        i := i + 1;
      }
      return Done(combined);
    } else if EndsWith(n.path, ".json") {
      if Contains(artifactName, "embeddings") {
        if Contains(Basename(n.path), "alpha") {
          if !n.content.Document? {
            return Raised;
          }
          combined := combined + [Fragment(n.path, n.content.value)];
          assert Flatten(n, artifactName, old(processed.paths)).outcome == Done(combined);
        } else {
          assert Flatten(n, artifactName, old(processed.paths)).outcome == Done(combined);
        }
      } else {
        if !n.content.Document? {
          return Raised;
        }
        combined := combined + [Fragment(n.path, n.content.value)];
        assert Flatten(n, artifactName, old(processed.paths)).outcome == Done(combined);
      }
    }
    return Done(combined);
  }

  // ---------------------------------------------------------------------------
  // What `process_file` promises

  /** A node processed a second time with the set its first processing left contributes
      nothing and leaves the set as it is. */
  lemma ProcessedOnce(n: Node, artifactName: string, seen: set<string>)
    ensures var first := Flatten(n, artifactName, seen);
            Flatten(n, artifactName, first.seen) == Step(Done([]), first.seen)
  {
  }

  /** The path each fragment of `Flatten` was read from, in the order of the fragments. */
  ghost function Sources(n: Node, artifactName: string, seen: set<string>): seq<string>
    decreases n, 1
  {
    if n.path in seen then []
    else
      var seen' := seen + {n.path};
      if EndsWith(n.path, ".zip") then
        if n.content.Archive? then WalkSources(n, artifactName, seen', |n.content.walk|) else []
      else if EndsWith(n.path, ".json") && !Filtered(artifactName, n.path) && n.content.Document? then [n.path]
      else []
  }

  ghost function WalkSources(zip: Node, artifactName: string, seen: set<string>, i: nat): seq<string>
    requires zip.content.Archive? && i <= |zip.content.walk|
    decreases zip, 0, i
  {
    if i == 0 then []
    else
      var prev := FlattenWalk(zip, artifactName, seen, i - 1);
      var entry := zip.content.walk[i - 1];
      assert entry in zip.content.walk;
      WalkSources(zip, artifactName, seen, i - 1) + Sources(entry, artifactName, prev.seen)
  }

  /** No path occurs twice. */
  predicate Distinct(paths: seq<string>) {
    forall a, b :: 0 <= a < b < |paths| ==> paths[a] != paths[b]
  }

  /** Each fragment comes with the path it was read from: a `.json` path whose stem keys it. The
      paths are distinct, none of them was processed before the call, and all of them are
      processed after it. */
  ghost predicate Traced(fragments: seq<Json>, paths: seq<string>, before: set<string>, after: set<string>) {
    |paths| == |fragments| && Distinct(paths) &&
    (forall k :: 0 <= k < |paths| ==>
       paths[k] !in before && paths[k] in after && EndsWith(paths[k], ".json") &&
       fragments[k].JObject? && |fragments[k].fields| == 1 && fragments[k].fields[0].0 == Stem(paths[k]))
  }

  /** Two traced lists from disjoint calls, one after the other, make one traced list. */
  lemma TracedAppend(f1: seq<Json>, p1: seq<string>, f2: seq<Json>, p2: seq<string>, s0: set<string>, s1: set<string>, s2: set<string>)
    requires Traced(f1, p1, s0, s1) && Traced(f2, p2, s1, s2) && s0 <= s1 <= s2
    ensures Traced(f1 + f2, p1 + p2, s0, s2)
  {
    var f, p := f1 + f2, p1 + p2;
    forall a, b | 0 <= a < b < |p| ensures p[a] != p[b] {
      if b < |p1| {
        assert p[a] == p1[a] && p[b] == p1[b];
      } else if a < |p1| {
        assert p[a] == p1[a] && p1[a] in s1;
        assert p[b] == p2[b - |p1|] && p2[b - |p1|] !in s1;
      } else {
        assert p[a] == p2[a - |p1|] && p[b] == p2[b - |p1|];
      }
    }
    forall k | 0 <= k < |p|
      ensures p[k] !in s0 && p[k] in s2 && EndsWith(p[k], ".json") &&
              f[k].JObject? && |f[k].fields| == 1 && f[k].fields[0].0 == Stem(p[k])
    {
      if k < |p1| {
        assert p[k] == p1[k] && f[k] == f1[k];
      } else {
        assert p[k] == p2[k - |p1|] && f[k] == f2[k - |p1|];
      }
    }
  }

  /** Every fragment of `process_file` comes from a `.json` path of its own that was not
      processed before the call: a path met twice in the walk, in the same zip or in different
      ones, is read once. */
  lemma {:induction false} FlattenSources(n: Node, artifactName: string, seen: set<string>)
    ensures var r := Flatten(n, artifactName, seen);
            r.outcome.Done? ==> Traced(r.outcome.fragments, Sources(n, artifactName, seen), seen, r.seen)
    decreases n, 1
  {
    if n.path !in seen {
      var seen' := seen + {n.path};
      if EndsWith(n.path, ".zip") {
        if n.content.Archive? {
          WalkSourcesTraced(n, artifactName, seen', |n.content.walk|);
        }
      } else if EndsWith(n.path, ".json") && !Filtered(artifactName, n.path) && n.content.Document? {
        JsonLeaf(n, artifactName, seen);
      }
    }
  }

  lemma {:induction false} WalkSourcesTraced(zip: Node, artifactName: string, seen: set<string>, i: nat)
    requires zip.content.Archive? && i <= |zip.content.walk|
    ensures var r := FlattenWalk(zip, artifactName, seen, i);
            r.outcome.Done? ==> Traced(r.outcome.fragments, WalkSources(zip, artifactName, seen, i), seen, r.seen)
    decreases zip, 0, i
  {
    if i > 0 {
      var prev := FlattenWalk(zip, artifactName, seen, i - 1);
      WalkSourcesTraced(zip, artifactName, seen, i - 1);
      if prev.outcome.Done? {
        var entry := zip.content.walk[i - 1];
        assert entry in zip.content.walk;
        FlattenSources(entry, artifactName, prev.seen);
        var next := Flatten(entry, artifactName, prev.seen);
        if next.outcome.Done? {
          TracedAppend(prev.outcome.fragments, WalkSources(zip, artifactName, seen, i - 1),
                       next.outcome.fragments, Sources(entry, artifactName, prev.seen), seen, prev.seen, next.seen);
        }
      }
    }
  }

  /** Two entries of a zip's walk with the same path: the second adds nothing, whatever it holds. */
  lemma RepeatedEntry(zip: Node, artifactName: string, seen: set<string>, a: Node, b: Node)
    requires EndsWith(zip.path, ".zip") && zip.path !in seen
    requires zip.content == Archive([a, b]) && a.path == b.path
    ensures Flatten(zip, artifactName, seen) == Flatten(a, artifactName, seen + {zip.path})
  {
    var s' := seen + {zip.path};
    var first := Flatten(a, artifactName, s');
    assert FlattenWalk(zip, artifactName, s', 0) == Step(Done([]), s');
    assert zip.content.walk[0] == a && zip.content.walk[1] == b;
    if first.outcome.Done? {
      assert [] + first.outcome.fragments == first.outcome.fragments;
    }
    assert FlattenWalk(zip, artifactName, s', 1) == first;
    if first.outcome.Done? {
      assert Flatten(b, artifactName, first.seen) == Step(Done([]), first.seen);
      assert first.outcome.fragments + [] == first.outcome.fragments;
    }
    assert FlattenWalk(zip, artifactName, s', 2) == first;
  }

  /** A `.json` leaf not seen before and not filtered out contributes exactly one fragment, keyed
      by its basename without the `.json` extension. */
  lemma JsonLeaf(n: Node, artifactName: string, seen: set<string>)
    requires n.path !in seen && EndsWith(n.path, ".json") && !Filtered(artifactName, n.path)
    requires n.content.Document?
    ensures EndsWith(Basename(n.path), ".json")
    ensures Flatten(n, artifactName, seen) == Step(Done([JObject([(Stem(n.path), n.content.value)])]), seen + {n.path})
  {
    JsonBasename(n.path);
    assert !EndsWith(n.path, ".zip") by {
      assert n.path[|n.path| - 1] == 'n';
    }
  }

  /** A path ending in `.json` has a basename ending in `.json`. */
  lemma JsonBasename(path: string)
    requires EndsWith(path, ".json")
    ensures EndsWith(Basename(path), ".json")
  {
    var b := Basename(path);
    var d := BasenameCut(path);
    assert path[|path| - 5..] == ".json";
    forall j | |path| - 5 <= j < |path| ensures path[j] != '/' {
      assert path[j] == ".json"[j - (|path| - 5)];
    }
    assert b[|b| - 5..] == path[|path| - 5..];
  }

  /** One fragment as `process_file` makes it: a one-key object, and under an "embeddings"
      artifact a key that contains "alpha". */
  predicate FragmentOk(f: Json, artifactName: string) {
    f.JObject? && |f.fields| == 1 && (Contains(artifactName, "embeddings") ==> Contains(f.fields[0].0, "alpha"))
  }

  predicate AllFragmentsOk(fs: seq<Json>, artifactName: string) {
    forall k :: 0 <= k < |fs| ==> FragmentOk(fs[k], artifactName)
  }

  /** Every fragment is a one-key object; for an "embeddings" artifact every key contains
      "alpha", however deep in nested zips the file lies. */
  lemma {:induction false} FlattenFragmentsOk(n: Node, artifactName: string, seen: set<string>)
    ensures var r := Flatten(n, artifactName, seen);
            r.outcome.Done? ==> AllFragmentsOk(r.outcome.fragments, artifactName)
    decreases n, 1
  {
    if n.path !in seen {
      var seen' := seen + {n.path};
      if EndsWith(n.path, ".zip") {
        if n.content.Archive? {
          WalkFragmentsOk(n, artifactName, seen', |n.content.walk|);
        }
      } else if EndsWith(n.path, ".json") && !Filtered(artifactName, n.path) && Contains(artifactName, "embeddings") {
        StemKeepsAlpha(n.path);
      }
    }
  }

  lemma {:induction false} WalkFragmentsOk(zip: Node, artifactName: string, seen: set<string>, i: nat)
    requires zip.content.Archive? && i <= |zip.content.walk|
    ensures var r := FlattenWalk(zip, artifactName, seen, i);
            r.outcome.Done? ==> AllFragmentsOk(r.outcome.fragments, artifactName)
    decreases zip, 0, i
  {
    if i > 0 {
      var prev := FlattenWalk(zip, artifactName, seen, i - 1);
      WalkFragmentsOk(zip, artifactName, seen, i - 1);
      if prev.outcome.Done? {
        var entry := zip.content.walk[i - 1];
        assert entry in zip.content.walk;
        FlattenFragmentsOk(entry, artifactName, prev.seen);
        var next := Flatten(entry, artifactName, prev.seen);
        if next.outcome.Done? {
          AppendFragmentsOk(prev.outcome.fragments, next.outcome.fragments, artifactName);
        }
      }
    }
  }

  lemma AppendFragmentsOk(a: seq<Json>, b: seq<Json>, artifactName: string)
    requires AllFragmentsOk(a, artifactName) && AllFragmentsOk(b, artifactName)
    ensures AllFragmentsOk(a + b, artifactName)
  {
    forall k | 0 <= k < |a + b| ensures FragmentOk((a + b)[k], artifactName) {
      if k < |a| {
        assert (a + b)[k] == a[k];
      } else {
        assert (a + b)[k] == b[k - |a|];
      }
    }
  }

  /** The stem of a `.json` file whose basename contains "alpha" still contains it: the
      extension cannot hold any part of it. */
  lemma StemKeepsAlpha(path: string)
    requires EndsWith(path, ".json") && Contains(Basename(path), "alpha")
    ensures Contains(Stem(path), "alpha")
  {
    var b := Basename(path);
    JsonBasename(path);
    var i :| 0 <= i <= |b| - 5 && OccursAt(b, "alpha", i);
    var m := |b| - 5;
    assert b[m..] == ".json";
    forall k | i <= k < i + 5 ensures b[k] != '.' {
      assert b[k] == b[i..i + 5][k - i];
    }
    assert b[m] == '.';
    var p := b[..m];
    assert p[i..i + 5] == b[i..i + 5];
    assert OccursAt(p, "alpha", i);
    assert p[i] == 'a';
    StemOfJson(path);
    assert Stem(path) == p;
  }

  // ---------------------------------------------------------------------------
  // The artifact run and the combined file

  /** The state of one `process_artifact` run after some top-level files: whether an
      exception ended it, the processed paths, and the list each completed file gave. */
  datatype Run = Run(raised: bool, seen: set<string>, results: seq<seq<Json>>)

  /** The run after the first `i` top-level files of the walk. */
  function RunPrefix(files: seq<Node>, artifactName: string, i: nat): (r: Run)
    requires i <= |files|
    ensures |r.results| <= i
  {
    if i == 0 then Run(false, {}, [])
    else
      var prev := RunPrefix(files, artifactName, i - 1);
      if prev.raised then prev
      else
        var s := Flatten(files[i - 1], artifactName, prev.seen);
        match s.outcome
        case Raised => Run(true, s.seen, prev.results)
        case Done(f) => Run(false, s.seen, prev.results + [f])
  }

  lemma {:induction false} RunRaisedStays(files: seq<Node>, artifactName: string, i: nat, j: nat)
    requires i <= j <= |files| && RunPrefix(files, artifactName, i).raised
    ensures RunPrefix(files, artifactName, j) == RunPrefix(files, artifactName, i)
    decreases j
  {
    if j > i {
      RunRaisedStays(files, artifactName, i, j - 1);
    }
  }

  /** The lists of a run, one after the other. */
  function Flat<T>(lists: seq<seq<T>>): seq<T> {
    if lists == [] then [] else Flat(lists[..|lists| - 1]) + lists[|lists| - 1]
  }

  /** The paths the fragments of each completed top-level file were read from. */
  ghost function RunSources(files: seq<Node>, artifactName: string, i: nat): seq<seq<string>>
    requires i <= |files|
  {
    if i == 0 then []
    else
      var prev := RunPrefix(files, artifactName, i - 1);
      if prev.raised || Flatten(files[i - 1], artifactName, prev.seen).outcome.Raised? then RunSources(files, artifactName, i - 1)
      else RunSources(files, artifactName, i - 1) + [Sources(files[i - 1], artifactName, prev.seen)]
  }

  /** Over one `process_artifact` run, each top-level file's fragments come from paths of their
      own: no path contributes twice, to the same list or to two lists. */
  lemma {:induction false} RunSourcesTraced(files: seq<Node>, artifactName: string, i: nat)
    requires i <= |files|
    ensures var r := RunPrefix(files, artifactName, i);
            var src := RunSources(files, artifactName, i);
            Traced(Flat(r.results), Flat(src), {}, r.seen)
    decreases i
  {
    if i > 0 {
      RunSourcesTraced(files, artifactName, i - 1);
      var prev := RunPrefix(files, artifactName, i - 1);
      var src0 := RunSources(files, artifactName, i - 1);
      if !prev.raised {
        var s := Flatten(files[i - 1], artifactName, prev.seen);
        RunPrefixStep(files, artifactName, i - 1, s);
        if s.outcome.Done? {
          var here := Sources(files[i - 1], artifactName, prev.seen);
          var results := prev.results + [s.outcome.fragments];
          var src := src0 + [here];
          assert RunSources(files, artifactName, i) == src;
          assert results[..|results| - 1] == prev.results && src[..|src| - 1] == src0;
          assert Flat(results) == Flat(prev.results) + s.outcome.fragments;
          assert Flat(src) == Flat(src0) + here;
          FlattenSources(files[i - 1], artifactName, prev.seen);
          TracedAppend(Flat(prev.results), Flat(src0), s.outcome.fragments, here, {}, prev.seen, s.seen);
        } else {
          assert RunSources(files, artifactName, i) == src0;
          TracedWiden(Flat(prev.results), Flat(src0), prev.seen, s.seen);
        }
      }
    }
  }

  /** Each completed top-level file has one source path per fragment. */
  lemma {:induction false} RunSourcesShape(files: seq<Node>, artifactName: string, i: nat)
    requires i <= |files|
    ensures var r := RunPrefix(files, artifactName, i);
            var src := RunSources(files, artifactName, i);
            |src| == |r.results| && forall k :: 0 <= k < |src| ==> |src[k]| == |r.results[k]|
    decreases i
  {
    if i > 0 {
      RunSourcesShape(files, artifactName, i - 1);
      var prev := RunPrefix(files, artifactName, i - 1);
      if !prev.raised {
        var s := Flatten(files[i - 1], artifactName, prev.seen);
        RunPrefixStep(files, artifactName, i - 1, s);
        if s.outcome.Done? {
          FlattenSources(files[i - 1], artifactName, prev.seen);
        }
      }
    }
  }

  lemma TracedWiden(fragments: seq<Json>, paths: seq<string>, after: set<string>, wider: set<string>)
    requires Traced(fragments, paths, {}, after) && after <= wider
    ensures Traced(fragments, paths, {}, wider)
  {
  }

  /** One more top-level file after a run that has not raised. */
  lemma RunPrefixStep(files: seq<Node>, artifactName: string, i: nat, s: Step)
    requires i < |files| && !RunPrefix(files, artifactName, i).raised
    requires s == Flatten(files[i], artifactName, RunPrefix(files, artifactName, i).seen)
    ensures var prev := RunPrefix(files, artifactName, i);
            RunPrefix(files, artifactName, i + 1) ==
              if s.outcome.Raised? then Run(true, s.seen, prev.results)
              else Run(false, s.seen, prev.results + [s.outcome.fragments])
  {
  }

  /** The last non-empty list, if any. */
  function LastNonEmpty(lists: seq<seq<Json>>): (r: Option<seq<Json>>)
    ensures r.Some? ==> r.value != [] && r.value in lists
  {
    if lists == [] then None
    else if lists[|lists| - 1] != [] then Some(lists[|lists| - 1])
    else LastNonEmpty(lists[..|lists| - 1])
  }

  /** The list at `k` is the last non-empty one exactly when it is not empty and every later
      list is. */
  lemma {:induction false} LastNonEmptyIs(lists: seq<seq<Json>>, k: nat)
    requires k < |lists| && lists[k] != []
    requires forall j :: k < j < |lists| ==> lists[j] == []
    ensures LastNonEmpty(lists) == Some(lists[k])
    decreases |lists|
  {
    if k < |lists| - 1 {
      var init := lists[..|lists| - 1];
      assert init[k] == lists[k];
      LastNonEmptyIs(init, k);
    }
  }

  /** Appending a list makes it the last non-empty one unless it is empty. */
  lemma LastNonEmptyAppend(lists: seq<seq<Json>>, f: seq<Json>)
    ensures LastNonEmpty(lists + [f]) == if f != [] then Some(f) else LastNonEmpty(lists)
  {
    assert (lists + [f])[..|lists|] == lists;
  }

  /** Without a non-empty list there is nothing to write. */
  lemma {:induction false} LastNonEmptyNone(lists: seq<seq<Json>>)
    ensures LastNonEmpty(lists) == None <==> forall j :: 0 <= j < |lists| ==> lists[j] == []
    decreases |lists|
  {
    if lists != [] {
      var init := lists[..|lists| - 1];
      LastNonEmptyNone(init);
      assert forall j :: 0 <= j < |init| ==> init[j] == lists[j];
    }
  }

  /** The artifacts directory with the combined file written with `last`, when there is one. */
  function Written(files: map<string, Json>, artifactName: string, last: Option<seq<Json>>): map<string, Json> {
    match last
    case None => files
    case Some(l) => files[artifactName + ".json" := JArray(l)]
  }

  /** Writing after one more top-level file: an empty list writes nothing, a non-empty one replaces
      whatever the earlier files wrote. */
  lemma WrittenStep(files: map<string, Json>, artifactName: string, results: seq<seq<Json>>, f: seq<Json>)
    ensures var before := Written(files, artifactName, LastNonEmpty(results));
            Written(files, artifactName, LastNonEmpty(results + [f])) ==
              if f == [] then before else before[artifactName + ".json" := JArray(f)]
  {
    LastNonEmptyAppend(results, f);
    var before := Written(files, artifactName, LastNonEmpty(results));
    var key := artifactName + ".json";
    if f != [] {
      assert before[key := JArray(f)] == files[key := JArray(f)];
    }
  }

  /** The artifacts directory after `process_artifact`: unchanged when the artifact is not a
      zip file; otherwise `<artifact_name>.json` holds the last non-empty list a top-level
      file gave before the walk ended or an exception stopped it. */
  function ArtifactOutput(files: map<string, Json>, artifact: Option<seq<Node>>, artifactName: string): map<string, Json> {
    match artifact
    case None => files
    case Some(top) => Written(files, artifactName, LastNonEmpty(RunPrefix(top, artifactName, |top|).results))
  }

  /** Only the combined file of this artifact can change, and everything else in the
      directory stays. */
  lemma OutputTouchesOneFile(files: map<string, Json>, artifact: Option<seq<Node>>, artifactName: string, name: string)
    requires name in files && name != artifactName + ".json"
    ensures name in ArtifactOutput(files, artifact, artifactName)
    ensures ArtifactOutput(files, artifact, artifactName)[name] == files[name]
  {
  }

  /** One iteration of the `process_artifact` loop before the write: process the `i`-th
      top-level file with the run's set, extending the run by one file. */
  method ProcessTopFile(top: seq<Node>, artifactName: string, i: nat, processed: ProcessedFiles, ghost results: seq<seq<Json>>)
    returns (outcome: Outcome)
    requires i < |top| && RunPrefix(top, artifactName, i) == Run(false, processed.paths, results)
    modifies processed
    ensures outcome.Done? ==> RunPrefix(top, artifactName, i + 1) == Run(false, processed.paths, results + [outcome.fragments])
    ensures outcome.Raised? ==> RunPrefix(top, artifactName, |top|) == Run(true, processed.paths, results)
  {
    outcome := ProcessFile(top[i], artifactName, processed);
    RunPrefixStep(top, artifactName, i, Step(outcome, processed.paths));
    if outcome.Raised? {
      RunRaisedStays(top, artifactName, i + 1, |top|);
    }
  }

  /** The output directory: file name to the JSON value the file holds. */
  class ArtifactsDir {
    var files: map<string, Json>

    constructor(initial: map<string, Json>)
      ensures files == initial
    {
      files := initial;
    }

    /** `write_combined_json_to_file`: nothing for an empty list, otherwise
        `<artifact_name>.json` is replaced by the list. */
    method WriteCombinedJson(combined: seq<Json>, artifactName: string)
      modifies this
      ensures files == if combined == [] then old(files) else old(files)[artifactName + ".json" := JArray(combined)]
    {
      if combined != [] {
        files := files[artifactName + ".json" := JArray(combined)];
      }
    }

    /** One iteration of the `process_artifact` loop: process the `i`-th top-level file with
        the run's set, then write the combined list unless an exception was raised. */
    method ProcessAndWrite(top: seq<Node>, artifactName: string, i: nat, processed: ProcessedFiles,
                           ghost initial: map<string, Json>, ghost results: seq<seq<Json>>)
      returns (raised: bool, ghost f: seq<Json>)
      requires i < |top| && RunPrefix(top, artifactName, i) == Run(false, processed.paths, results)
      requires files == Written(initial, artifactName, LastNonEmpty(results))
      modifies this, processed
      ensures !raised ==> RunPrefix(top, artifactName, i + 1) == Run(false, processed.paths, results + [f])
      ensures !raised ==> files == Written(initial, artifactName, LastNonEmpty(results + [f]))
      ensures raised ==> files == Written(initial, artifactName, LastNonEmpty(RunPrefix(top, artifactName, |top|).results))
    {
      var combined := ProcessTopFile(top, artifactName, i, processed, results);
      if combined.Raised? {
        raised, f := true, [];
        return;
      }
      raised, f := false, combined.fragments;
      WriteCombinedJson(combined.fragments, artifactName);
      WrittenStep(initial, artifactName, results, f);
    }

    /** `process_artifact`: when the artifact is a zip file, process each top-level file of
        its walk with one shared set and write the combined file after each; an exception
        ends the walk. `None` is an artifact that is not a zip file. */
    method ProcessArtifact(artifact: Option<seq<Node>>, artifactName: string)
      modifies this
      ensures files == ArtifactOutput(old(files), artifact, artifactName)
    {
      if artifact.None? {
        return;
      }
      var top := artifact.value;
      var processed := new ProcessedFiles();
      ghost var results: seq<seq<Json>> := [];
      var i := 0;
      while i < |top|
        invariant 0 <= i <= |top|
        invariant RunPrefix(top, artifactName, i) == Run(false, processed.paths, results)
        invariant files == Written(old(files), artifactName, LastNonEmpty(results))
      {
        var raised, f := ProcessAndWrite(top, artifactName, i, processed, old(files), results);
        if raised {
          return;
        }
        results := results + [f];
        i := i + 1;
      }
    }
  }
}
