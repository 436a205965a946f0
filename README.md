# A verified model of the OpenShift console test environment

The test environment lets the console run against a Kubernetes API server
without a real controller manager. The model covers four parts of it:

- **Setup** (`pkg/testenv/setup.go`). The Go side sorts the configured files
  into CRD manifests and other resource files. It descends into directories.
  It then builds the `ts-node` command line that hands the other files to the
  framework's CLI as one comma-joined list.
- **The CLI** (`test-env/test-env-framework/cli/index.ts`). It splits that list
  and sorts the entries into manifest and script files by case-insensitive
  suffix. It configures the shared cluster connection and creates every
  manifest document in order. Failures whose body kind is `Status` are
  tolerated; any other failure aborts. Finally it imports the scripts, prints
  the registered scenario tree and runs it.
- **The cluster access layer** (`test-env/test-env-framework/api/k8s.ts`). This
  is the kubeconfig it builds, the set-once shared configuration, the create
  call and the `watchPath` adapter. The adapter logs a label for each event's
  phase and hands the event to a handler.
- **The reconcilers** (`test-env/openshift/deployment.ts`). A Deployment event
  yields one ReplicaSet descriptor. A ReplicaSet event yields `replicas`
  identical Running Pods, created one by one.

Modules:

| module | contents |
|---|---|
| `Values` | `Option`, `Result`, JSON documents, JavaScript truthiness |
| `Text` | ASCII lower-casing, suffix tests, `split`/`join` |
| `Resources` | workload, pod and owner-reference records |
| `KubeApi` | kubeconfig; `SharedKubeConfig` (the module variable); `ApiServer` (the create call and its log); the watch adapter |
| `Reconcilers` | the two handlers, as descriptor functions and as methods that call `Create` |
| `Scenario` | the `Item` tree, `print`/`printRoot`, `runItem` and its children loop |
| `Cli` | classification, the apply loop, the import loop, the whole driver |
| `TestEnvSetup` | `organizeFiles`, `StartTsNode`, `Setup`, and the cross-language hand-over |

### How each part is modelled

**State that changes in place is a class.**
- `SharedKubeConfig` holds an optional configuration.
- `ApiServer` logs every create call in `submitted` and answers the k-th call
  with the k-th reply of a fixed script (`Created` once the script runs out).
  So a statement such as "the calls made are exactly these, in this order" is
  a statement about `submitted`.

**Loops become methods whose `ensures` ties them to a function.** Each such
method is proved against the function, and the properties are lemmas about
the function:
- the handlers' create loop;
- the classification loop;
- the nested apply loop;
- the import loop;
- the children loop of `runItem`;
- the `organizeFiles` loop.

**Behaviour of the code that the model keeps as written:**
- Bookmark events are handed to the handlers like any other event.
- A replica count of 0 gives one Pod, because the count defaults with a logical or.
- An owner reference is set only when `apiVersion`, `kind` and `uid` are all
  non-empty.
- `selector!` and `spec!` are TypeScript non-null assertions with no check at
  run time. A missing selector or pod spec is copied as missing.

## Model

| member | source | states |
|---|---|---|
| `Text.EndsWithMeaning` | pkg/testenv/setup.go:20 | the suffix test holds exactly when the string is at least as long as the suffix and ends with exactly those characters |
| `Text.EndsWithAnyMeaning` | pkg/testenv/setup.go:20-25 | a chain of suffix tests joined by a logical or holds exactly when some suffix in the list matches |
| `Text.EndsWithAnyAppend` | pkg/testenv/setup.go:28-32 | testing a concatenated suffix list holds exactly when testing one of its two parts holds |
| `Text.Split` | test-env/test-env-framework/cli/index.ts:62 | `split` on one character never returns an empty list |
| `Text.SplitJoin` | pkg/testenv/setup.go:72 | splitting a non-empty joined list on the separator gives the list back when no piece contains the separator |
| `KubeApi.CreateKubeConfigConnects` | test-env/test-env-framework/api/k8s.ts:14-28 | the built config has current context `test-env-context`. That context names `test-env-cluster`, whose server is the given address with TLS verification skipped |
| `KubeApi.Find` | test-env/test-env-framework/api/k8s.ts:14-28 | those lines only build the `clusters` and `contexts` lists. The lookup by name that the client library does when it reads the config returns an entry of the list carrying the name, and nothing exactly when no entry does |
| `KubeApi.SharedKubeConfig.constructor` | test-env/test-env-framework/api/k8s.ts:12 | the shared configuration starts unset |
| `KubeApi.SharedKubeConfig.Setup` | test-env/test-env-framework/api/k8s.ts:30-32 | after setup the shared configuration is the one built for the given address, whatever was there before |
| `KubeApi.SharedKubeConfig.Get` | test-env/test-env-framework/api/k8s.ts:34-41 | reading fails with the "not configured yet" message exactly when setup has not happened. Otherwise it returns the configuration, and it changes nothing |
| `KubeApi.ApiServer.constructor` | test-env/test-env-framework/api/k8s.ts:46-47 | a fresh cluster has logged no create call |
| `KubeApi.ApiServer.Create` | test-env/test-env-framework/api/k8s.ts:46-47 | a create call appends the object to the log and gets the reply for its position in the log |
| `KubeApi.CallsMadeAll` | test-env/test-env-framework/cli/index.ts:93-107 | when no reply aborts, every planned create call is made |
| `KubeApi.CallsMadeStop` | test-env/test-env-framework/cli/index.ts:98-106 | when call `i` is the first to abort, exactly `i + 1` calls are made and the sequence does not complete |
| `KubeApi.PhaseLabel` | test-env/test-env-framework/api/k8s.ts:67-77 | the labels for ADDED, MODIFIED and DELETED. BOOKMARK prints the resource version (`undefined` when absent) and fails exactly when the watch object or its metadata is missing. Any other phase gets "unknown phase: " followed by the phase |
| `KubeApi.DeliverAppend` | test-env/test-env-framework/api/k8s.ts:66-79 | what reaches the callback from two consecutive stretches of a stream is what reaches it from each, in order |
| `KubeApi.DeliverForwardsAll` | test-env/test-env-framework/api/k8s.ts:66-79 | when every label can be computed, every event of every phase reaches the callback once, unchanged and in order |
| `Reconcilers.OwnerReferences` | test-env/openshift/deployment.ts:21-26 | there is at most one owner reference. There is one exactly when apiVersion, kind and uid are all non-empty, and it points at the parent |
| `Reconcilers.ReplicasOr1` | test-env/openshift/deployment.ts:33 | a present non-zero count is kept, an absent or zero count gives 1, and the result is never 0 |
| `Reconcilers.ReplicaSetFor` | test-env/openshift/deployment.ts:15-37 | apiVersion `apps/v1`, kind `ReplicaSet`, the Deployment's namespace, `generateName` of name followed by `-`, labels `app` and `deployment` set to the name. Its owner references are exactly those built from the Deployment: one reference when apiVersion, kind and uid are set. No uid, resourceVersion or annotations. The replica count defaulted to 1, selector and template copied |
| `Reconcilers.DesiredReplicaSets` | test-env/openshift/deployment.ts:8-10 | one ReplicaSet when namespace and name are set, and none otherwise |
| `Reconcilers.PodFor` | test-env/openshift/deployment.ts:60-79 | apiVersion `v1`, kind `Pod`. The metadata is the template metadata with namespace, `generateName` and owner references replaced and every other field kept. Its owner references are exactly those built from the ReplicaSet. The spec is the template spec and the phase is `Running` |
| `Reconcilers.PodCount` | test-env/openshift/deployment.ts:50-59 | the loop runs zero times without namespace and name, the defaulted count of times when that is positive, and zero times when it is negative |
| `Reconcilers.DesiredPods` | test-env/openshift/deployment.ts:54-83 | `PodCount` Pods, all of them the same descriptor |
| `Reconcilers.ReconcileDeployment` | test-env/openshift/deployment.ts:5-41 | the handler makes exactly the planned create call, or none when the guard fails. It completes exactly when that call succeeds |
| `Reconcilers.ReconcileReplicaSet` | test-env/openshift/deployment.ts:47-84 | one create call per iteration, in order, stopping after the first failure. It completes exactly when no planned call fails |
| `Reconcilers.Reconcile` | test-env/openshift/deployment.ts:5-84 | either handler makes a prefix of its planned calls, up to and including the first failure, and completes exactly when none fails |
| `Reconcilers.OnEvent` | test-env/test-env-framework/api/k8s.ts:66-79 | the handler runs exactly when the label can be computed. When it runs, the log grows by the event's planned children up to and including the first failed create. Otherwise the log is unchanged |
| `Reconcilers.WatchPath` | test-env/test-env-framework/api/k8s.ts:59-85 | the callback receives the deliverable events in arrival order. A rejected handler does not stop the stream: every delivered event's handler makes its planned calls up to and including its first failure, the next handler continuing the call sequence. When every reply succeeds, the calls made are the planned children of the delivered events, in order |
| `Reconcilers.MadeAllCreated` | test-env/openshift/deployment.ts:54-83 | when every create from a given call on succeeds, every handler makes all its planned calls, one list after the other |
| `Reconcilers.StreamCallsAllCreated` | test-env/test-env-framework/api/k8s.ts:59-85 | when every create succeeds, the calls made for a sequence of callback invocations are their planned children in order |
| `Reconcilers.StreamCallsStep` | test-env/test-env-framework/api/k8s.ts:66-79 | one more callback invocation appends its handler's calls, up to and including its first failure, to the calls made before it |
| `Reconcilers.RedeliveryIsNotDeduplicated` | test-env/openshift/deployment.ts:5-84 | an event delivered twice plans its children twice |
| `Reconcilers.PhaseIsIgnored` | test-env/openshift/deployment.ts:5-84 | two streams carrying the same objects plan the same children, whatever their phases |
| `Reconcilers.DeploymentYieldsOwnedRunningPods` | test-env/openshift/deployment.ts:15-37 | a Deployment with `R > 0` replicas and a non-empty apiVersion, kind and uid yields one ReplicaSet that it owns, with `R` replicas and its selector. Once that ReplicaSet is named, it yields `R` Running Pods that it owns, in the Deployment's namespace, with its template spec |
| `Scenario.Intent` | test-env/test-env-framework/cli/index.ts:27-29 | the indentation for depth `level` is `2 * level` spaces |
| `Scenario.Outline` | test-env/test-env-framework/cli/index.ts:31-34 | the pre-order of a tree starts with its root at its depth |
| `Scenario.OutlineSize` | test-env/test-env-framework/cli/index.ts:31-34 | the pre-order has as many entries as the tree has nodes |
| `Scenario.PrintFollowsOutline` | test-env/test-env-framework/cli/index.ts:31-34 | `print` emits one line per node in pre-order. Each line is the node's indentation, `- `, its type, a space and its name |
| `Scenario.PrintAllFollowsOutline` | test-env/test-env-framework/cli/index.ts:33 | the children's lines follow the children's pre-order |
| `Scenario.PrintRootFollowsOutline` | test-env/test-env-framework/cli/index.ts:36-38 | `printRoot` prints the tree's pre-order without its root: one line fewer than the tree has nodes |
| `Scenario.PrintAllAtFollowsOutline` | test-env/test-env-framework/cli/index.ts:37 | printing the top-level children gives one line per node below them, in pre-order |
| `Scenario.RunItem` | test-env/test-env-framework/cli/index.ts:40-52 | the method's log, invocations and completion are those of the recursive run definition |
| `Scenario.RunChildren` | test-env/test-env-framework/cli/index.ts:47-51 | the children loop runs each child's subtree to completion before the next, and stops at the first rejection |
| `Scenario.RunFollowsOutline` | test-env/test-env-framework/cli/index.ts:40-52 | a run completes exactly when no callback in the tree rejects. The invoked callbacks are the pre-order's callbacks up to and including the first one that rejects, or all of them when none rejects |
| `Scenario.RunAllFollowsOutline` | test-env/test-env-framework/cli/index.ts:47-51 | the same for the children loop: the invocations stop exactly at the first rejecting callback in the children's pre-order |
| `Scenario.UntilPrefix` | test-env/test-env-framework/cli/index.ts:40-52 | the callbacks up to the first rejecting one are a prefix of all callbacks. They are all of them when none rejects, and not empty when one does |
| `Scenario.UntilAppend` | test-env/test-env-framework/cli/index.ts:47-51 | for two stretches of a pre-order run one after the other, a rejection lies in the whole exactly when it lies in one of them, and the second stretch is reached only when no callback of the first rejects |
| `Scenario.ThrowsOutline` | test-env/test-env-framework/cli/index.ts:40-52 | a run rejects exactly when some callback in the tree's pre-order rejects |
| `Scenario.DeploymentConfigPrintOrder` | test-env/openshift/deploymentconfig.ts:8-28 | the DeploymentConfig scenario prints its six nodes in registration order at depths 0, 1, 2, 3, 1 and 1 |
| `Scenario.DeploymentConfigRunOrder` | test-env/openshift/deploymentconfig.ts:8-28 | running that scenario invokes its three actions in registration order and completes |
| `Cli.KindOf` | test-env/test-env-framework/cli/index.ts:62-80 | an empty entry is skipped. A manifest suffix in any letter case wins over a script suffix. Everything else is unsupported |
| `Cli.ClassifyMeaning` | test-env/test-env-framework/cli/index.ts:62-80 | for any per-entry rule, classification succeeds exactly when no entry is unsupported, and then lists manifest and script entries in input order and spelling. Otherwise it fails with the first unsupported entry |
| `Cli.ClassifyErrSticks` | test-env/test-env-framework/cli/index.ts:78 | once an entry throws, later entries do not matter |
| `Cli.ClassifyResources` | test-env/test-env-framework/cli/index.ts:62-80 | the push loop computes the classification of the comma-split list |
| `Cli.DocumentsPrefix` | test-env/test-env-framework/cli/index.ts:87-93 | the documents of the first files come first among all documents |
| `Cli.ApplyManifests` | test-env/test-env-framework/cli/index.ts:87-108 | every document of every file, in order, gets one create call, up to and including the first failure not of kind `Status`. The method completes exactly when no such failure occurs |
| `Cli.ApplyFile` | test-env/test-env-framework/cli/index.ts:93-107 | one file's documents continue the call sequence. Failures of kind `Status` are skipped, and any other failure ends the run with exactly the documents sent so far |
| `Cli.ImportScripts` | test-env/test-env-framework/cli/index.ts:110-114 | scripts are imported one at a time in list order |
| `Cli.RunCli` | test-env/test-env-framework/cli/index.ts:62-120 | an unsupported extension stops the run before the shared config is set up and before any create call. Otherwise: connect, apply all documents, import all scripts, print, then run. The first failure that is not of kind `Status` ends the run right after that document |
| `TestEnvSetup.KindOf` | pkg/testenv/setup.go:15-34 | an empty name is skipped. A CRD suffix in any letter case wins over a generic resource suffix. Every other name is unknown |
| `TestEnvSetup.Prefixed` | pkg/testenv/setup.go:40-43 | each entry of a listing is prefixed with the directory path and `/` |
| `TestEnvSetup.ListDirectory` | pkg/testenv/setup.go:40-43 | the listing loop computes the prefixed names in order |
| `TestEnvSetup.OrganizeStep` | pkg/testenv/setup.go:15-48 | empty names are skipped and CRD and other resource names are appended. An unknown name that is not a readable directory is fatal, and a readable directory is replaced by its listing |
| `TestEnvSetup.OrganizeFiles` | pkg/testenv/setup.go:14-51 | the loop with its early recursive return computes `organizeFiles` |
| `TestEnvSetup.OrganizeSound` | pkg/testenv/setup.go:14-51 | for any per-name rule, the accumulators are only appended to. Every new CRD entry is a CRD name and every new other entry a resource name, so empty names never enter |
| `TestEnvSetup.OrganizeFlat` | pkg/testenv/setup.go:15-34 | without directories, `organizeFiles` appends the CRD names and the other resource names to the accumulators in input order and original spelling |
| `TestEnvSetup.DirectoryEndsScan` | pkg/testenv/setup.go:35-44 | the names after a directory are never examined |
| `TestEnvSetup.Getenv` | pkg/testenv/setup.go:65 | an unset or empty variable gives the fallback, and a set one its value |
| `TestEnvSetup.StartTsNode` | pkg/testenv/setup.go:60-79 | nothing starts exactly for an empty list. Otherwise the launch happens exactly when `<home>/node_modules/.bin/ts-node` exists, `<home>` being `TEST_ENV_FRAMEWORK_HOME` or `test-env/test-env-framework`. A launch runs that binary with `<home>/cli --api-server http://127.0.0.1:8092 --resources` followed by the comma-joined list. When the binary is missing, the missing path is that one |
| `TestEnvSetup.LaunchRoundTrip` | pkg/testenv/setup.go:72 | when no name contains a comma, the CLI's split of the `--resources` argument gives back the Go list |
| `TestEnvSetup.ForwardedFilesAccepted` | pkg/testenv/setup.go:53-58 | every file the Go side hands to the CLI passes the CLI's classification, sorted into manifests and scripts in list order |

## Left out

- Pacing delays: the `sleep` calls in both handlers are timing only. Only the order of create calls is kept.
- The Kubernetes client: the real `create`, `list` and `Watch`, stream delivery and the watch error callback are library calls. Each create is answered from a reply script in the `ApiServer`. A stream is a finite sequence of events.
- Creating with an unset shared configuration: `getObjectApi` throws in that case. The model's `Create` does not consult `SharedKubeConfig`, and the CLI always sets it up before creating.
- Reading and parsing manifests: file reads and `YAML.parseAllDocuments` are a `parse` parameter from file name to documents.
- Importing scripts: `import()`, `parseFile` and node registration live outside these files. `RunCli` takes the registered tree as input and records each import as a step.
- `runRoot` starts the top-level children with an unawaited `forEach`, and its call is not awaited either. This concurrency is not modelled. The trace records the start, and `RunItem` models each top-level child's sequential run.
- Diagnostic logging is not modelled: `klog`, the apply loop's success and ignore-error logs, and the outer `catch`'s log. The modelled output is the tree that `printRoot` prints, the line `runItem` writes for each node, and the watch adapter's phase label, which is there because computing it can throw. The success log `result.body.metadata.name` in the apply loop is not modelled, so a create whose body lacks metadata counts as a success.
- `Text.Lower`: only ASCII letters are lower-cased. `toLocaleLowerCase` and `strings.ToLower` also fold other letters.
- The directory oracle: `isDirectory` and `ioutil.ReadDir` are one finite map from directory path to listing (`Unreadable` for a read error). `TestEnvSetup.OrganizeFiles` is proved for file systems without cycles through symbolic links: the termination measure assumes paths grow with depth.
- `klog.Fatal` and `os.Exit` become the `Fatal` result of `organizeFiles` and the `TsNodeMissing` result of `StartTsNode`.
- Starting the test environment (`StartTestEnvironment` and the rest of `pkg/testenv/start_testenv.go`) and the child process with its goroutine are not part of this model. `fileExists`, `getenv` and `isDirectory` from `pkg/testenv/utils.go` become parameters.
- Replica counts are integers. JavaScript's non-integer and NaN counts are not modelled.
- Node types of the scenario tree are the strings `describe` and `it`. The registering module is not part of this model.
- `Scenario.DeploymentConfigTree`: the tree is rebuilt on the assumption that the registering module gives `describe` nodes no callback and `it` nodes the registered action.
- The outer `catch` of the CLI only logs. An abort is the `ApplyFailed` outcome.
- `Cli.RunCli`: a manifest that cannot be read (cli/index.ts:90) or parsed, and a rejected `parseFile` or `import()` (cli/index.ts:113), abort the run in the code. The model's `parse` parameter always yields documents and imports always succeed, so these aborts are not modelled.
- `Reconcilers.WatchPath`: the model assumes the watch library awaits each asynchronous callback before it delivers the next event, so handlers run one after the other. The code does not show this. If the library does not wait, creates of different handlers interleave during the `sleep` calls, and a rejected adapter promise is unhandled and ends the Node process instead of being skipped.
