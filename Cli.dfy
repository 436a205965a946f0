/** The framework's command-line driver: it sorts the comma-separated
    resource list into manifest and script files, connects to the cluster,
    applies every manifest document in order, imports every script (which
    registers scenario nodes), prints the scenario tree and starts it. */
module Cli {
  import opened Values
  import opened Text
  import opened Resources
  import opened KubeApi
  import opened Scenario

  // ---------------------------------------------------------------------------
  // Classification

  const ManifestSuffixes := [".json", ".yaml", ".yml"]
  const ScriptSuffixes := [".js", ".ts"]

  /** A manifest file: `.json`, `.yaml` or `.yml`, in any letter case. */
  predicate IsManifestName(filename: string) {
    EndsWithAny(Lower(filename), ManifestSuffixes)
  }

  /** A script file: `.js` or `.ts`, in any letter case. */
  predicate IsScriptName(filename: string) {
    EndsWithAny(Lower(filename), ScriptSuffixes)
  }

  datatype FileKind = Skipped | ManifestFile | ScriptFile | Unsupported

  /** How the classification loop treats one entry; manifest suffixes are
      checked before script suffixes. */
  function KindOf(filename: string): (k: FileKind)
    ensures k == Skipped <==> filename == ""
    ensures k == ManifestFile <==> filename != "" && IsManifestName(filename)
    ensures k == ScriptFile <==> filename != "" && !IsManifestName(filename) && IsScriptName(filename)
  {
    if filename == "" then Skipped
    else if IsManifestName(filename) then ManifestFile
    else if IsScriptName(filename) then ScriptFile
    else Unsupported
  }

  datatype Classified = Classified(yamlFiles: seq<string>, tsFiles: seq<string>)

  /** The classification loop over `names`: the two lists it fills, or the
      first entry with an unsupported extension, which it throws on. */
  function Classify(names: seq<string>): Result<Classified, string> {
    ClassifyBy(KindOf, names)
  }

  /** The classification loop for any per-entry test `kindOf`; the lemmas
      below hold whatever the test is. */
  function ClassifyBy(kindOf: string -> FileKind, names: seq<string>): Result<Classified, string> {
    if names == [] then Ok(Classified([], []))
    else Extend(kindOf, ClassifyBy(kindOf, names[..|names| - 1]), names[|names| - 1])
  }

  /** One turn of the classification loop. */
  function Extend(kindOf: string -> FileKind, c: Result<Classified, string>, f: string): Result<Classified, string> {
    match c
    case Err(_) => c
    case Ok(v) =>
      match kindOf(f)
      case Skipped => c
      case ManifestFile => Ok(v.(yamlFiles := v.yamlFiles + [f]))
      case ScriptFile => Ok(v.(tsFiles := v.tsFiles + [f]))
      case Unsupported => Err(f)
  }

  /** The entries of `names` of one kind, in their order and spelling. */
  function Select(kindOf: string -> FileKind, names: seq<string>, kind: FileKind): (r: seq<string>)
    ensures forall f :: f in r ==> f in names && kindOf(f) == kind
  {
    if names == [] then []
    else
      var f := names[0];
      (if kindOf(f) == kind then [f] else []) + Select(kindOf, names[1..], kind)
  }

  lemma {:induction false} SelectSnoc(kindOf: string -> FileKind, names: seq<string>, f: string, kind: FileKind)
    ensures Select(kindOf, names + [f], kind) ==
      Select(kindOf, names, kind) + (if kindOf(f) == kind then [f] else [])
  {
    if names == [] {
      assert names + [f] == [f];
    } else {
      assert (names + [f])[1..] == names[1..] + [f];
      SelectSnoc(kindOf, names[1..], f, kind);
    }
  }

  /** Classification succeeds exactly when no entry has an unsupported
      extension; it then lists the manifest and the script files in input
      order and original spelling, and skips empty entries. Otherwise it
      reports the first unsupported entry. */
  lemma ClassifyMeaning(kindOf: string -> FileKind, names: seq<string>)
    ensures ClassifyBy(kindOf, names).Ok? <==> forall k :: 0 <= k < |names| ==> kindOf(names[k]) != Unsupported
    ensures ClassifyBy(kindOf, names).Ok? ==>
      ClassifyBy(kindOf, names).value ==
        Classified(Select(kindOf, names, ManifestFile), Select(kindOf, names, ScriptFile))
    ensures ClassifyBy(kindOf, names).Err? ==>
      exists k ::
        && 0 <= k < |names| && names[k] == ClassifyBy(kindOf, names).error && kindOf(names[k]) == Unsupported
        && forall j :: 0 <= j < k ==> kindOf(names[j]) != Unsupported
  {
    ClassifyAccepts(kindOf, names);
    if ClassifyBy(kindOf, names).Ok? {
      ClassifyLists(kindOf, names);
    } else {
      ClassifyRejects(kindOf, names);
    }
  }

  lemma {:induction false} ClassifyAccepts(kindOf: string -> FileKind, names: seq<string>)
    ensures ClassifyBy(kindOf, names).Ok? <==> forall k :: 0 <= k < |names| ==> kindOf(names[k]) != Unsupported
  {
    if names != [] {
      var init, f := names[..|names| - 1], names[|names| - 1];
      ClassifyAccepts(kindOf, init);
      assert ClassifyBy(kindOf, names) == Extend(kindOf, ClassifyBy(kindOf, init), f);
      if ClassifyBy(kindOf, names).Ok? {
        assert ClassifyBy(kindOf, init).Ok? && kindOf(f) != Unsupported;
        forall k | 0 <= k < |names|
          ensures kindOf(names[k]) != Unsupported
        {
          if k < |init| {
            assert names[k] == init[k];
          }
        }
      } else if ClassifyBy(kindOf, init).Err? {
        var k :| 0 <= k < |init| && kindOf(init[k]) == Unsupported;
        assert names[k] == init[k];
      } else {
        assert kindOf(names[|init|]) == Unsupported;
      }
    }
  }

  lemma {:induction false} ClassifyLists(kindOf: string -> FileKind, names: seq<string>)
    requires ClassifyBy(kindOf, names).Ok?
    ensures ClassifyBy(kindOf, names).value ==
      Classified(Select(kindOf, names, ManifestFile), Select(kindOf, names, ScriptFile))
  {
    if names != [] {
      var init, f := names[..|names| - 1], names[|names| - 1];
      assert names == init + [f];
      ClassifyLists(kindOf, init);
      SelectSnoc(kindOf, init, f, ManifestFile);
      SelectSnoc(kindOf, init, f, ScriptFile);
    }
  }

  lemma {:induction false} ClassifyRejects(kindOf: string -> FileKind, names: seq<string>)
    requires ClassifyBy(kindOf, names).Err?
    ensures exists k ::
              && 0 <= k < |names| && names[k] == ClassifyBy(kindOf, names).error && kindOf(names[k]) == Unsupported
              && forall j :: 0 <= j < k ==> kindOf(names[j]) != Unsupported
  {
    var init, f := names[..|names| - 1], names[|names| - 1];
    assert names == init + [f];
    if ClassifyBy(kindOf, init).Err? {
      ClassifyRejects(kindOf, init);
      var k :| 0 <= k < |init| && init[k] == ClassifyBy(kindOf, init).error && kindOf(init[k]) == Unsupported &&
        forall j :: 0 <= j < k ==> kindOf(init[j]) != Unsupported;
      assert names[k] == init[k];
    } else {
      ClassifyAccepts(kindOf, init);
      assert names[|init|] == f;
    }
  }

  /** Once an entry throws, the entries after it do not matter. */
  lemma {:induction false} ClassifyErrSticks(kindOf: string -> FileKind, names: seq<string>, i: nat)
    requires i <= |names|
    requires ClassifyBy(kindOf, names[..i]).Err?
    ensures ClassifyBy(kindOf, names) == ClassifyBy(kindOf, names[..i])
    decreases |names| - i
  {
    if i < |names| {
      assert names[..i + 1][..i] == names[..i];
      ClassifyErrSticks(kindOf, names, i + 1);
    } else {
      assert names[..i] == names;
    }
  }

  /** `resources.split(",").forEach(...)`: the classification loop, pushing
      onto the two lists or throwing on an unsupported extension. */
  method ClassifyResources(resources: string) returns (r: Result<Classified, string>)
    ensures r == Classify(Split(resources, ','))
  {
    var names := Split(resources, ',');
    var yamlFiles, tsFiles := [], [];
    var i := 0;
    while i < |names|
      invariant 0 <= i <= |names|
      invariant Classify(names[..i]) == Ok(Classified(yamlFiles, tsFiles))
    {
      var filename := names[i];
      ClassifyStep(KindOf, names, i);
      var lower := Lower(filename);
      if filename == "" {
        assert KindOf(filename) == Skipped;
      } else if EndsWithAny(lower, ManifestSuffixes) {
        assert KindOf(filename) == ManifestFile;
        yamlFiles := yamlFiles + [filename];
      } else if EndsWithAny(lower, ScriptSuffixes) {
        assert KindOf(filename) == ScriptFile;
        tsFiles := tsFiles + [filename];
      } else {
        assert KindOf(filename) == Unsupported;
        ClassifyErrSticks(KindOf, names, i + 1);
        return Err(filename);
      }
      i := i + 1;
    }
    assert names[..i] == names;
    r := Ok(Classified(yamlFiles, tsFiles));
  }

  lemma ClassifyStep(kindOf: string -> FileKind, names: seq<string>, i: nat)
    requires i < |names|
    ensures ClassifyBy(kindOf, names[..i + 1]) == Extend(kindOf, ClassifyBy(kindOf, names[..i]), names[i])
  {
    assert names[..i + 1][..i] == names[..i];
  }

  // ---------------------------------------------------------------------------
  // Applying manifests

  /** Every document of every manifest file, files in order and documents in
      file order; `parse` stands for reading and parsing one file. */
  function Documents(files: seq<string>, parse: string -> seq<Json>): seq<Json> {
    if files == [] then []
    else Documents(files[..|files| - 1], parse) + parse(files[|files| - 1])
  }

  lemma DocumentsStep(files: seq<string>, i: nat, parse: string -> seq<Json>)
    requires i < |files|
    ensures Documents(files[..i + 1], parse) == Documents(files[..i], parse) + parse(files[i])
  {
    assert files[..i + 1][..i] == files[..i];
  }

  /** The documents of the first files are a prefix of all documents. */
  lemma {:induction false} DocumentsPrefix(files: seq<string>, i: nat, parse: string -> seq<Json>)
    requires i <= |files|
    ensures Documents(files[..i], parse) <= Documents(files, parse)
    decreases |files| - i
  {
    if i < |files| {
      DocumentsStep(files, i, parse);
      DocumentsPrefix(files, i + 1, parse);
    } else {
      assert files[..i] == files;
    }
  }

  function Manifests(docs: seq<Json>): (rs: seq<Resource>)
    ensures |rs| == |docs| && forall k :: 0 <= k < |docs| ==> rs[k] == Manifest(docs[k])
  {
    seq(|docs|, k requires 0 <= k < |docs| => Manifest(docs[k]))
  }

  lemma ManifestsExtend(docs: seq<Json>, d: Json)
    ensures Manifests(docs + [d]) == Manifests(docs) + [Manifest(d)]
  {
  }

  /** The apply loop: one create call per document, in order. A failure
      whose body kind is `Status` is logged and skipped; any other failure is
      rethrown and ends the loop. `applied` lists the documents sent. */
  method ApplyManifests(api: ApiServer, files: seq<string>, parse: string -> seq<Json>)
    returns (completed: bool, applied: seq<Json>)
    modifies api
    ensures var all := Documents(files, parse);
      applied == all[..CallsMade(api.replies, |old(api.submitted)|, |all|, true)]
    ensures api.submitted == old(api.submitted) + Manifests(applied)
    ensures completed == Completes(api.replies, |old(api.submitted)|, |Documents(files, parse)|, true)
  {
    ghost var base := api.submitted;
    ghost var all := Documents(files, parse);
    applied := [];
    var i := 0;
    while i < |files|
      invariant 0 <= i <= |files|
      invariant applied == Documents(files[..i], parse)
      invariant api.submitted == base + Manifests(applied)
      invariant Completes(api.replies, |base|, |applied|, true)
    {
      var documents := parse(files[i]);
      DocumentsStep(files, i, parse);
      DocumentsPrefix(files, i + 1, parse);
      var ok;
      ok, applied := ApplyFile(api, documents, base, all, applied);
      if !ok {
        return false, applied;
      }
      i := i + 1;
    }
    assert files[..i] == files;
    CallsMadeAll(api.replies, |base|, |all|, true);
    assert all[..|all|] == all;
    completed := true;
  }

  /** The documents of one file, continuing the apply loop after the
      documents `sent` earlier; `ok` is false when a failure was rethrown. */
  method ApplyFile(api: ApiServer, documents: seq<Json>, ghost base: seq<Resource>, ghost all: seq<Json>,
                   sent: seq<Json>)
    returns (ok: bool, applied: seq<Json>)
    modifies api
    requires sent + documents <= all
    requires api.submitted == base + Manifests(sent)
    requires Completes(api.replies, |base|, |sent|, true)
    ensures api.submitted == base + Manifests(applied)
    ensures ok ==> applied == sent + documents && Completes(api.replies, |base|, |applied|, true)
    ensures !ok ==>
      applied == all[..CallsMade(api.replies, |base|, |all|, true)] && !Completes(api.replies, |base|, |all|, true)
  {
    applied := sent;
    var j := 0;
    while j < |documents|
      invariant 0 <= j <= |documents|
      invariant applied == sent + documents[..j]
      invariant api.submitted == base + Manifests(applied)
      invariant Completes(api.replies, |base|, |applied|, true)
    {
      assert all[|applied|] == documents[j] by {
        assert (sent + documents)[|sent| + j] == documents[j];
      }
      ghost var n := |applied|;
      var out := api.Create(Manifest(documents[j]));
      assert documents[..j + 1] == documents[..j] + [documents[j]];
      ManifestsExtend(applied, documents[j]);
      applied := applied + [documents[j]];
      if out.Failed? && out.bodyKind != Some("Status") {
        CallsMadeStop(api.replies, |base|, |all|, true, n);
        assert applied == all[..n + 1];
        return false, applied;
      }
      // a failure whose body kind is `Status` is logged and the next document follows
      CompletesExtend(api.replies, |base|, n, true);
      j := j + 1;
    }
    assert documents[..j] == documents;
    ok := true;
  }

  // ---------------------------------------------------------------------------
  // The whole run

  /** What the driver did, in order. */
  datatype CliStep =
    | Connect(apiServer: string)
    | Apply(document: Json)
    | Import(file: string)
    | PrintTree(lines: seq<string>)
    | StartRun

  function ApplySteps(docs: seq<Json>): (steps: seq<CliStep>)
    ensures |steps| == |docs| && forall k :: 0 <= k < |docs| ==> steps[k] == Apply(docs[k])
  {
    seq(|docs|, k requires 0 <= k < |docs| => Apply(docs[k]))
  }

  function ImportSteps(files: seq<string>): (steps: seq<CliStep>)
    ensures |steps| == |files| && forall k :: 0 <= k < |files| ==> steps[k] == Import(files[k])
  {
    seq(|files|, k requires 0 <= k < |files| => Import(files[k]))
  }

  /** The import loop: each script is loaded in list order, each load
      awaited before the next. */
  method ImportScripts(tsFiles: seq<string>) returns (steps: seq<CliStep>)
    ensures steps == ImportSteps(tsFiles)
  {
    steps := [];
    var k := 0;
    while k < |tsFiles|
      invariant 0 <= k <= |tsFiles|
      invariant steps == ImportSteps(tsFiles[..k])
    {
      steps := steps + [Import(tsFiles[k])];
      k := k + 1;
    }
    assert tsFiles[..k] == tsFiles;
  }

  datatype CliOutcome = UnsupportedExtension(filename: string) | ApplyFailed | Started

  /** The driver. An unsupported extension throws before the cluster
      connection is configured and before any create call. Otherwise the
      shared configuration is set up, all manifest documents are applied
      before any script is imported, the tree is printed after all imports
      and started after printing; an unclassified create failure abandons
      everything after it. `root` is the tree the imported scripts register. */
  method RunCli(api: ApiServer, shared: SharedKubeConfig, apiServer: string, resources: string,
                parse: string -> seq<Json>, root: Item)
    returns (outcome: CliOutcome, trace: seq<CliStep>)
    modifies api, shared
    ensures var c := Classify(Split(resources, ','));
      c.Err? ==>
        && outcome == UnsupportedExtension(c.error) && trace == []
        && shared.config == old(shared.config) && api.submitted == old(api.submitted)
    ensures var c := Classify(Split(resources, ','));
      c.Ok? ==>
        var all := Documents(c.value.yamlFiles, parse);
        var applied := all[..CallsMade(api.replies, |old(api.submitted)|, |all|, true)];
        && shared.config == Some(CreateKubeConfig(apiServer))
        && api.submitted == old(api.submitted) + Manifests(applied)
        && (Completes(api.replies, |old(api.submitted)|, |all|, true) ==>
              outcome == Started &&
              trace == [Connect(apiServer)] + ApplySteps(all) + ImportSteps(c.value.tsFiles) +
                       [PrintTree(PrintRoot(root)), StartRun])
        && (!Completes(api.replies, |old(api.submitted)|, |all|, true) ==>
              outcome == ApplyFailed && trace == [Connect(apiServer)] + ApplySteps(applied))
  {
    var classified := ClassifyResources(resources);
    if classified.Err? {
      return UnsupportedExtension(classified.error), [];
    }
    var yamlFiles, tsFiles := classified.value.yamlFiles, classified.value.tsFiles;
    shared.Setup(apiServer);
    assert api.submitted == old(api.submitted);
    trace := [Connect(apiServer)];
    var completed, applied := ApplyManifests(api, yamlFiles, parse);
    ghost var all := Documents(yamlFiles, parse);
    ghost var made := CallsMade(api.replies, |old(api.submitted)|, |all|, true);
    assert applied == all[..made];
    assert shared.config == Some(CreateKubeConfig(apiServer));
    trace := trace + ApplySteps(applied);
    if !completed {
      return ApplyFailed, trace;
    }
    assert applied == all by {
      CallsMadeAll(api.replies, |old(api.submitted)|, |all|, true);
      assert all[..|all|] == all;
    }
    var imports := ImportScripts(tsFiles);
    trace := trace + imports + [PrintTree(PrintRoot(root)), StartRun];
    outcome := Started;
  }
}
