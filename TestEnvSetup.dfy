/** The Go side of the test environment: sorting the configured files into
    CRD files and other resource files (descending into directories), and
    building the command line that hands the other resource files to the
    framework's CLI. Directory queries and the environment are parameters:
    `fs` maps each directory path to its listing, so `isDirectory(p)` is
    `p in fs`. */
module TestEnvSetup {
  import opened Values
  import opened Text
  import Cli

  // ---------------------------------------------------------------------------
  // File kinds

  const CrdSuffixes := ["-crd.json", "-crd.yaml", "-crd.yml", "-crds.json", "-crds.yaml", "-crds.yml"]
  const ResourceSuffixes := [".json", ".yaml", ".yml", ".js", ".ts"]

  /** A CRD manifest: `-crd` or `-crds` before `.json`, `.yaml` or `.yml`, in
      any letter case. */
  predicate IsCrdName(filename: string) {
    EndsWithAny(Lower(filename), CrdSuffixes)
  }

  /** Any other resource file the CLI can load. */
  predicate IsResourceName(filename: string) {
    EndsWithAny(Lower(filename), ResourceSuffixes)
  }

  /** Where one entry goes; the CRD test comes first. */
  datatype Kind = Skip | CrdFile | ResourceFile | Other

  function KindOf(filename: string): (k: Kind)
    ensures k == Skip <==> filename == ""
    ensures k == CrdFile <==> filename != "" && IsCrdName(filename)
    ensures k == ResourceFile <==> filename != "" && !IsCrdName(filename) && IsResourceName(filename)
  {
    if filename == "" then Skip
    else if IsCrdName(filename) then CrdFile
    else if IsResourceName(filename) then ResourceFile
    else Other
  }

  /** The names `kindOf` puts in one kind, in order and in their original
      spelling. */
  function Pick(kindOf: string -> Kind, files: seq<string>, kind: Kind): seq<string> {
    if files == [] then []
    else (if kindOf(files[0]) == kind then [files[0]] else []) + Pick(kindOf, files[1..], kind)
  }

  // ---------------------------------------------------------------------------
  // The directory oracle and the termination measure

  datatype Listing = Entries(names: seq<string>) | Unreadable

  /** `fmt.Sprintf("%s/%s", dir, name)` for every entry of a listing. */
  function Prefixed(dir: string, names: seq<string>): (r: seq<string>)
    ensures |r| == |names| && forall k :: 0 <= k < |names| ==> r[k] == dir + "/" + names[k]
  {
    seq(|names|, k requires 0 <= k < |names| => dir + "/" + names[k])
  }

  ghost function MaxLen(keys: set<string>): (m: nat)
    ensures forall k :: k in keys ==> |k| <= m
  {
    if keys == {} then 0
    else
      var k :| k in keys;
      var rest := MaxLen(keys - {k});
      if |k| > rest then |k| else rest
  }

  ghost function Shortest(files: seq<string>): (m: nat)
    requires files != []
    ensures forall k :: 0 <= k < |files| ==> m <= |files[k]|
    ensures exists k :: 0 <= k < |files| && m == |files[k]|
  {
    if |files| == 1 then |files[0]|
    else
      var rest := Shortest(files[1..]);
      if |files[0]| < rest then |files[0]| else rest
  }

  /** How much deeper directory recursion can go: every directory path is a
      key of `fs`, and each level of recursion lengthens the paths. */
  ghost function Span(fs: map<string, Listing>, files: seq<string>): nat {
    if files == [] then 0
    else
      var top := MaxLen(fs.Keys);
      var low := Shortest(files);
      if low > top then 0 else top + 1 - low
  }

  lemma SpanTail(fs: map<string, Listing>, files: seq<string>)
    requires files != []
    ensures Span(fs, files[1..]) <= Span(fs, files)
  {
  }

  lemma SpanShrinks(fs: map<string, Listing>, files: seq<string>, i: nat, names: seq<string>)
    requires i < |files| && files[i] in fs
    ensures Span(fs, Prefixed(files[i], names)) < Span(fs, files)
  {
    var inner := Prefixed(files[i], names);
    if inner != [] {
      var k :| 0 <= k < |inner| && Shortest(inner) == |inner[k]|;
      assert |inner[k]| > |files[i]|;
    }
  }

  // ---------------------------------------------------------------------------
  // organizeFiles

  datatype Organized = Organized(crds: seq<string>, others: seq<string>) | Fatal(path: string)

  /** What `organizeFiles(files, crds, others)` returns: names are appended
      to the accumulators in order; the first directory is replaced by its
      listing and ends the scan of `files`; a name of no known kind that is
      not a readable directory is fatal. */
  function Organize(files: seq<string>, crds: seq<string>, others: seq<string>, fs: map<string, Listing>): Organized {
    OrganizeBy(KindOf, files, crds, others, fs)
  }

  /** The recursion of `organizeFiles`, for any per-name test `kindOf`; the
      lemmas below hold whatever the test is. */
  function OrganizeBy(kindOf: string -> Kind, files: seq<string>, crds: seq<string>, others: seq<string>,
                      fs: map<string, Listing>): Organized
    decreases Span(fs, files), |files|
  {
    if files == [] then Organized(crds, others)
    else
      var f := files[0];
      SpanTail(fs, files);
      match kindOf(f)
      case Skip => OrganizeBy(kindOf, files[1..], crds, others, fs)
      case CrdFile => OrganizeBy(kindOf, files[1..], crds + [f], others, fs)
      case ResourceFile => OrganizeBy(kindOf, files[1..], crds, others + [f], fs)
      case Other =>
        if f !in fs then Fatal(f)
        else
          match fs[f]
          case Unreadable => Fatal(f)
          case Entries(names) =>
            SpanShrinks(fs, files, 0, names);
            OrganizeBy(kindOf, Prefixed(f, names), crds, others, fs)
  }

  /** What the first entry does: a named file moves to its list, an unknown
      name that is not a readable directory is fatal, a readable directory
      is replaced by its listing. */
  lemma OrganizeStep(kindOf: string -> Kind, files: seq<string>, crds: seq<string>, others: seq<string>,
                     fs: map<string, Listing>)
    requires files != []
    ensures kindOf(files[0]) == Skip ==>
      OrganizeBy(kindOf, files, crds, others, fs) == OrganizeBy(kindOf, files[1..], crds, others, fs)
    ensures kindOf(files[0]) == CrdFile ==>
      OrganizeBy(kindOf, files, crds, others, fs) == OrganizeBy(kindOf, files[1..], crds + [files[0]], others, fs)
    ensures kindOf(files[0]) == ResourceFile ==>
      OrganizeBy(kindOf, files, crds, others, fs) == OrganizeBy(kindOf, files[1..], crds, others + [files[0]], fs)
    ensures kindOf(files[0]) == Other && (files[0] !in fs || fs[files[0]].Unreadable?) ==>
      OrganizeBy(kindOf, files, crds, others, fs) == Fatal(files[0])
    ensures kindOf(files[0]) == Other && files[0] in fs && fs[files[0]].Entries? ==>
      OrganizeBy(kindOf, files, crds, others, fs) ==
        OrganizeBy(kindOf, Prefixed(files[0], fs[files[0]].names), crds, others, fs)
  {
  }

  /** The listing loop: every entry of the directory, prefixed by its path. */
  method ListDirectory(dir: string, names: seq<string>) returns (paths: seq<string>)
    ensures paths == Prefixed(dir, names)
  {
    paths := [];
    var k := 0;
    while k < |names|
      invariant 0 <= k <= |names|
      invariant paths == Prefixed(dir, names[..k])
    {
      paths := paths + [dir + "/" + names[k]];
      k := k + 1;
    }
    assert names[..k] == names;
  }

  /** `organizeFiles` as the program runs it: a loop appending to the two
      slices, returning early with a recursive call on a directory. */
  method OrganizeFiles(files: seq<string>, crds: seq<string>, others: seq<string>, fs: map<string, Listing>)
    returns (r: Organized)
    ensures r == Organize(files, crds, others, fs)
    decreases Span(fs, files)
  {
    var crdFiles, otherFiles := crds, others;
    var i := 0;
    while i < |files|
      invariant 0 <= i <= |files|
      invariant Organize(files, crds, others, fs) == Organize(files[i..], crdFiles, otherFiles, fs)
    {
      var filename := files[i];
      assert files[i..][0] == filename && files[i..][1..] == files[i + 1..];
      OrganizeStep(KindOf, files[i..], crdFiles, otherFiles, fs);
      if filename == "" {
        assert KindOf(filename) == Skip;
        i := i + 1;
        continue;
      }
      var lower := Lower(filename);
      if EndsWithAny(lower, CrdSuffixes) {
        assert KindOf(filename) == CrdFile;
        crdFiles := crdFiles + [filename];
      } else if EndsWithAny(lower, ResourceSuffixes) {
        assert KindOf(filename) == ResourceFile;
        otherFiles := otherFiles + [filename];
      } else if filename in fs {
        assert KindOf(filename) == Other;
        match fs[filename]
        case Unreadable =>
          return Fatal(filename);
        case Entries(names) =>
          var temp := ListDirectory(filename, names);
          SpanShrinks(fs, files, i, names);
          r := OrganizeFiles(temp, crdFiles, otherFiles, fs);
          return;
      } else {
        assert KindOf(filename) == Other;
        return Fatal(filename);
      }
      i := i + 1;
    }
    return Organized(crdFiles, otherFiles);
  }

  /** The accumulators are only appended to: empty names never enter either
      list, CRD names go to `crds` only, other resource names to `others`
      only. */
  lemma {:induction false} OrganizeSound(kindOf: string -> Kind, files: seq<string>, crds: seq<string>,
                                         others: seq<string>, fs: map<string, Listing>)
    ensures var r := OrganizeBy(kindOf, files, crds, others, fs);
      r.Organized? ==>
        && crds <= r.crds && others <= r.others
        && (forall k :: |crds| <= k < |r.crds| ==> kindOf(r.crds[k]) == CrdFile)
        && (forall k :: |others| <= k < |r.others| ==> kindOf(r.others[k]) == ResourceFile)
    decreases Span(fs, files), |files|
  {
    if files != [] {
      var f := files[0];
      SpanTail(fs, files);
      match kindOf(f)
      case Skip => OrganizeSound(kindOf, files[1..], crds, others, fs);
      case CrdFile =>
        OrganizeSound(kindOf, files[1..], crds + [f], others, fs);
        var r := OrganizeBy(kindOf, files, crds, others, fs);
        if r.Organized? {
          assert (crds + [f])[|crds|] == f;
          assert crds <= crds + [f];
        }
      case ResourceFile =>
        OrganizeSound(kindOf, files[1..], crds, others + [f], fs);
        var r := OrganizeBy(kindOf, files, crds, others, fs);
        if r.Organized? {
          assert (others + [f])[|others|] == f;
          assert others <= others + [f];
        }
      case Other =>
        if f in fs && fs[f].Entries? {
          SpanShrinks(fs, files, 0, fs[f].names);
          OrganizeSound(kindOf, Prefixed(f, fs[f].names), crds, others, fs);
        }
    }
  }

  /** Without directories and unknown names, `organizeFiles` is a stable
      partition: CRD names and other resource names are appended in input
      order. */
  lemma {:induction false} OrganizeFlat(kindOf: string -> Kind, files: seq<string>, crds: seq<string>,
                                        others: seq<string>, fs: map<string, Listing>)
    requires forall k :: 0 <= k < |files| ==> kindOf(files[k]) != Other
    ensures OrganizeBy(kindOf, files, crds, others, fs) ==
      Organized(crds + Pick(kindOf, files, CrdFile), others + Pick(kindOf, files, ResourceFile))
    decreases |files|
  {
    if files != [] {
      var f, tail := files[0], files[1..];
      OrganizeStep(kindOf, files, crds, others, fs);
      match kindOf(f)
      case Skip =>
        OrganizeFlat(kindOf, tail, crds, others, fs);
      case CrdFile =>
        OrganizeFlat(kindOf, tail, crds + [f], others, fs);
        assert crds + [f] + Pick(kindOf, tail, CrdFile) == crds + ([f] + Pick(kindOf, tail, CrdFile));
      case ResourceFile =>
        OrganizeFlat(kindOf, tail, crds, others + [f], fs);
        assert others + [f] + Pick(kindOf, tail, ResourceFile) == others + ([f] + Pick(kindOf, tail, ResourceFile));
      case Other =>
        assert false;
    }
  }

  /** A directory ends the scan: whatever follows it in the list is never
      examined, and its listing is organized in its place. */
  lemma {:induction false} DirectoryEndsScan(kindOf: string -> Kind, pre: seq<string>, d: string,
                                             rest1: seq<string>, rest2: seq<string>,
                                             crds: seq<string>, others: seq<string>, fs: map<string, Listing>)
    requires kindOf(d) == Other && d in fs
    ensures OrganizeBy(kindOf, pre + [d] + rest1, crds, others, fs) ==
      OrganizeBy(kindOf, pre + [d] + rest2, crds, others, fs)
    decreases |pre|
  {
    var a, b := pre + [d] + rest1, pre + [d] + rest2;
    if pre == [] {
      assert a[0] == d && b[0] == d;
    } else {
      assert a[0] == pre[0] && b[0] == pre[0];
      assert a[1..] == pre[1..] + [d] + rest1 && b[1..] == pre[1..] + [d] + rest2;
      var f := pre[0];
      match kindOf(f)
      case Skip => DirectoryEndsScan(kindOf, pre[1..], d, rest1, rest2, crds, others, fs);
      case CrdFile => DirectoryEndsScan(kindOf, pre[1..], d, rest1, rest2, crds + [f], others, fs);
      case ResourceFile => DirectoryEndsScan(kindOf, pre[1..], d, rest1, rest2, crds, others + [f], fs);
      case Other =>
    }
  }

  // ---------------------------------------------------------------------------
  // StartTsNode and Setup

  const FrameworkHomeVariable := "TEST_ENV_FRAMEWORK_HOME"
  const DefaultFrameworkHome := "test-env/test-env-framework"
  const CliApiServer := "http://127.0.0.1:8092"

  /** `getenv(key, fallback)`: an unset or empty variable gives the fallback. */
  function Getenv(env: map<string, string>, key: string, fallback: string): (v: string)
    ensures key in env && env[key] != "" ==> v == env[key]
    ensures key !in env || env[key] == "" ==> v == fallback
  {
    if key in env && env[key] != "" then env[key] else fallback
  }

  /** The framework directory: `TEST_ENV_FRAMEWORK_HOME`, or the default
      when it is unset or empty. */
  function FrameworkHome(env: map<string, string>): string {
    Getenv(env, FrameworkHomeVariable, DefaultFrameworkHome)
  }

  /** Where the ts-node binary is expected under the framework directory. */
  function TsNodePath(env: map<string, string>): string {
    FrameworkHome(env) + "/node_modules/.bin/ts-node"
  }

  datatype TsNode = NotStarted | TsNodeMissing(path: string) | Launch(program: string, args: seq<string>)

  /** What `StartTsNode(files)` does: nothing for an empty list; exit when
      the ts-node binary is missing (`existing` is the set of paths that
      exist); otherwise launch ts-node on the CLI with the comma-joined
      file list. */
  function StartTsNode(files: seq<string>, env: map<string, string>, existing: set<string>): (t: TsNode)
    ensures files == [] <==> t == NotStarted
    ensures files != [] ==> (t.Launch? <==> TsNodePath(env) in existing)
    ensures t.TsNodeMissing? ==> t.path == TsNodePath(env)
    ensures t.Launch? ==> t.program == TsNodePath(env) && t.program in existing
    ensures t.Launch? ==> |t.args| == 5 && t.args[0] == FrameworkHome(env) + "/cli"
    ensures t.Launch? ==> t.args[1..4] == ["--api-server", CliApiServer, "--resources"]
    ensures t.Launch? ==> t.args[4] == Join(files, ',')
  {
    if |files| == 0 then NotStarted
    else
      var home := Getenv(env, FrameworkHomeVariable, DefaultFrameworkHome);
      var tsNode := home + "/node_modules/.bin/ts-node";
      var args := [home + "/cli", "--api-server", CliApiServer, "--resources", Join(files, ',')];
      if tsNode !in existing then TsNodeMissing(tsNode) else Launch(tsNode, args)
  }

  /** The CLI gets back exactly the list the Go side joined, provided no
      file name contains a comma. */
  lemma LaunchRoundTrip(files: seq<string>, env: map<string, string>, existing: set<string>)
    requires forall k :: 0 <= k < |files| ==> ',' !in files[k]
    requires StartTsNode(files, env, existing).Launch?
    ensures Split(StartTsNode(files, env, existing).args[4], ',') == files
  {
    SplitJoin(files, ',');
  }

  datatype SetupResult = SetupFatal(path: string) | Planned(crdFiles: seq<string>, tsNode: TsNode)

  /** `Setup`: organize the configured files, hand the CRD files to the
      test environment and the other files to ts-node. */
  function Setup(testEnvFiles: seq<string>, fs: map<string, Listing>, env: map<string, string>,
                 existing: set<string>): SetupResult
  {
    match Organize(testEnvFiles, [], [], fs)
    case Fatal(p) => SetupFatal(p)
    case Organized(crds, others) => Planned(crds, StartTsNode(others, env, existing))
  }

  /** Every file the Go side hands over is accepted by the CLI's
      classification: the CLI reads back the same list, and sorts it into
      manifests and scripts in list order. */
  lemma ForwardedFilesAccepted(testEnvFiles: seq<string>, fs: map<string, Listing>, env: map<string, string>,
                               existing: set<string>)
    requires Setup(testEnvFiles, fs, env, existing).Planned?
    requires Setup(testEnvFiles, fs, env, existing).tsNode.Launch?
    requires var o := Organize(testEnvFiles, [], [], fs).others;
      forall k :: 0 <= k < |o| ==> ',' !in o[k]
    ensures var o := Organize(testEnvFiles, [], [], fs).others;
      Cli.Classify(Split(Setup(testEnvFiles, fs, env, existing).tsNode.args[4], ',')) ==
        Ok(Cli.Classified(Cli.Select(Cli.KindOf, o, Cli.ManifestFile), Cli.Select(Cli.KindOf, o, Cli.ScriptFile)))
  {
    var o := Organize(testEnvFiles, [], [], fs).others;
    OrganizeSound(KindOf, testEnvFiles, [], [], fs);
    LaunchRoundTrip(o, env, existing);
    forall k | 0 <= k < |o|
      ensures Cli.KindOf(o[k]) != Cli.Unsupported
    {
      assert KindOf(o[k]) == ResourceFile;
      assert ResourceSuffixes == Cli.ManifestSuffixes + Cli.ScriptSuffixes;
      EndsWithAnyAppend(Lower(o[k]), Cli.ManifestSuffixes, Cli.ScriptSuffixes);
    }
    Cli.ClassifyMeaning(Cli.KindOf, o);
  }
}
