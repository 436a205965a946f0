/** The framework's cluster access layer: the kubeconfig it builds, the
    process-wide shared configuration, the create call and the watch adapter. */
module KubeApi {
  import opened Values
  import opened Resources

  // ---------------------------------------------------------------------------
  // Kubeconfig

  datatype Cluster = Cluster(name: string, server: string, skipTLSVerify: bool)
  datatype Context = Context(name: string, cluster: string, user: string)
  datatype KubeConfig = KubeConfig(clusters: seq<Cluster>, contexts: seq<Context>, currentContext: string)

  const ClusterName := "test-env-cluster"
  const ContextName := "test-env-context"

  /** A freshly constructed KubeConfig: nothing registered, no current context. */
  const EmptyKubeConfig := KubeConfig([], [], "")

  function AddCluster(kc: KubeConfig, c: Cluster): KubeConfig {
    kc.(clusters := kc.clusters + [c])
  }

  function AddContext(kc: KubeConfig, c: Context): KubeConfig {
    kc.(contexts := kc.contexts + [c])
  }

  function SetCurrentContext(kc: KubeConfig, name: string): KubeConfig {
    kc.(currentContext := name)
  }

  /** The configuration every client of the test environment talks through: one
      cluster at `apiServer` with TLS verification off, one context naming it,
      and that context selected. */
  function CreateKubeConfig(apiServer: string): KubeConfig {
    var kc := AddCluster(EmptyKubeConfig, Cluster(ClusterName, apiServer, true));
    var kc := AddContext(kc, Context(ContextName, ClusterName, ""));
    SetCurrentContext(kc, ContextName)
  }

  /** The first entry of a kubeconfig list with the given name. */
  function Find<T>(entries: seq<T>, nameOf: T -> string, name: string): (r: Option<T>)
    ensures r.Some? ==> r.value in entries && nameOf(r.value) == name
    ensures r.None? ==> forall e :: e in entries ==> nameOf(e) != name
  {
    if entries == [] then None
    else if nameOf(entries[0]) == name then Some(entries[0])
    else Find(entries[1..], nameOf, name)
  }

  function ContextNameOf(c: Context): string { c.name }

  function ClusterNameOf(c: Cluster): string { c.name }

  /** The cluster a client built from `kc` connects to: the cluster named by
      the current context. */
  function CurrentCluster(kc: KubeConfig): Option<Cluster> {
    match Find(kc.contexts, ContextNameOf, kc.currentContext)
    case None => None
    case Some(ctx) => Find(kc.clusters, ClusterNameOf, ctx.cluster)
  }

  /** A client built from `CreateKubeConfig(s)` talks to `s`, with TLS
      verification skipped, through the test-env context and cluster. */
  lemma CreateKubeConfigConnects(apiServer: string)
    ensures CreateKubeConfig(apiServer).currentContext == ContextName
    ensures Find(CreateKubeConfig(apiServer).contexts, ContextNameOf, ContextName) == Some(Context(ContextName, ClusterName, ""))
    ensures CurrentCluster(CreateKubeConfig(apiServer)) == Some(Cluster(ClusterName, apiServer, true))
  {
  }

  // ---------------------------------------------------------------------------
  // Shared configuration

  const NotConfiguredMessage := "Shared KubeConfig is not configured yet. Please call setupSharedKubeConfig first."

  /** The module-level `sharedKubeConfig` variable: unset until the first
      setup, replaced by every later setup. */
  class SharedKubeConfig {
    var config: Option<KubeConfig>

    constructor ()
      ensures config == None
    {
      config := None;
    }

    /** `setupSharedKubeConfig`: whatever was there before is replaced. */
    method Setup(apiServer: string)
      modifies this
      ensures config == Some(CreateKubeConfig(apiServer))
    {
      config := Some(CreateKubeConfig(apiServer));
    }

    /** `getSharedKubeConfig`: the configuration, or the error raised when
      setup has not happened yet. Reading changes nothing. */
    method Get() returns (r: Result<KubeConfig, string>)
      ensures config.None? <==> r.Err?
      ensures config.None? ==> r == Err(NotConfiguredMessage)
      ensures config.Some? ==> r == Ok(config.value)
    {
      if config.None? {
        return Err(NotConfiguredMessage);
      }
      return Ok(config.value);
    }
  }

  // ---------------------------------------------------------------------------
  // The create call

  /** What the cluster answered to one create call. A failure carries the
      `kind` of its error body (`None` when there is no body or no kind). */
  datatype Outcome = Created | Failed(bodyKind: Option<string>)

  /** The reply to the `i`-th create call: the scripted reply, or success once
      the script is exhausted. */
  function Reply(replies: seq<Outcome>, i: nat): Outcome {
    if i < |replies| then replies[i] else Created
  }

  /** Whether a reply ends the caller's sequence of create calls. A caller
      that tolerates `Status` errors goes on after a failure whose body kind is
      `Status`; every other failure propagates. */
  predicate Aborts(o: Outcome, tolerateStatus: bool) {
    o.Failed? && !(tolerateStatus && o.bodyKind == Some("Status"))
  }

  /** None of the `total` calls starting at call number `start` aborts. */
  predicate Completes(replies: seq<Outcome>, start: nat, total: nat, tolerateStatus: bool) {
    forall i :: start <= i < start + total ==> !Aborts(Reply(replies, i), tolerateStatus)
  }

  lemma CompletesExtend(replies: seq<Outcome>, start: nat, n: nat, tolerateStatus: bool)
    requires Completes(replies, start, n, tolerateStatus)
    requires !Aborts(Reply(replies, start + n), tolerateStatus)
    ensures Completes(replies, start, n + 1, tolerateStatus)
  {
  }

  /** How many of `total` planned create calls, the first being call number
      `start`, are issued by a caller that stops at the first aborting reply. */
  function CallsMade(replies: seq<Outcome>, start: nat, total: nat, tolerateStatus: bool): (k: nat)
    ensures k <= total
    decreases total
  {
    if total == 0 then 0
    else if Aborts(Reply(replies, start), tolerateStatus) then 1
    else 1 + CallsMade(replies, start + 1, total - 1, tolerateStatus)
  }

  /** When no reply aborts, every planned call is made. */
  lemma {:induction false} CallsMadeAll(replies: seq<Outcome>, start: nat, total: nat, tolerateStatus: bool)
    requires Completes(replies, start, total, tolerateStatus)
    ensures CallsMade(replies, start, total, tolerateStatus) == total
    decreases total
  {
    if total > 0 {
      assert !Aborts(Reply(replies, start), tolerateStatus);
      CallsMadeAll(replies, start + 1, total - 1, tolerateStatus);
    }
  }

  /** When call number `start + i` is the first to abort, exactly `i + 1`
      calls are made and the sequence does not complete. */
  lemma {:induction false} CallsMadeStop(replies: seq<Outcome>, start: nat, total: nat, tolerateStatus: bool, i: nat)
    requires i < total
    requires Completes(replies, start, i, tolerateStatus)
    requires Aborts(Reply(replies, start + i), tolerateStatus)
    ensures CallsMade(replies, start, total, tolerateStatus) == i + 1
    ensures !Completes(replies, start, total, tolerateStatus)
    decreases i
  {
    if i > 0 {
      assert !Aborts(Reply(replies, start), tolerateStatus);
      CallsMadeStop(replies, start + 1, total - 1, tolerateStatus, i - 1);
    }
  }

  /** The cluster as the test environment sees it: the log of every create call, in
      order, and the replies it gives. */
  class ApiServer {
    var submitted: seq<Resource>
    const replies: seq<Outcome>

    constructor (replies: seq<Outcome>)
      ensures submitted == [] && this.replies == replies
    {
      submitted := [];
      this.replies := replies;
    }

    /** `create(resource)`: the call is logged and answered with the next reply. */
    method Create(obj: Resource) returns (out: Outcome)
      modifies this
      ensures submitted == old(submitted) + [obj]
      ensures out == Reply(replies, |old(submitted)|)
    {
      out := Reply(replies, |submitted|);
      submitted := submitted + [obj];
    }
  }

  // ---------------------------------------------------------------------------
  // The watch adapter

  /** The raw watch object handed to the callback beside the typed object. */
  datatype WatchObject = WatchObject(metadata: Option<ObjectMeta>)

  datatype WatchEvent = WatchEvent(phase: string, apiObj: Workload, watchObj: Option<WatchObject>)

  /** The diagnostic line `watchPath` logs for a phase. For `BOOKMARK` it reads
      `watchObj.metadata.resourceVersion`, which throws when the watch object
      or its metadata is missing; an absent resource version prints as
      `undefined`. */
  function PhaseLabel(phase: string, watchObj: Option<WatchObject>): (r: Result<string, string>)
    ensures phase == "ADDED" ==> r == Ok("new object:")
    ensures phase == "MODIFIED" ==> r == Ok("changed object:")
    ensures phase == "DELETED" ==> r == Ok("deleted object:")
    ensures phase == "BOOKMARK" ==>
      (r.Ok? <==> watchObj.Some? && watchObj.value.metadata.Some?)
    ensures phase == "BOOKMARK" && r.Ok? ==>
      r.value == "bookmark: " + (match watchObj.value.metadata.value.resourceVersion
                                 case Some(v) => v
                                 case None => "undefined")
    ensures phase !in {"ADDED", "MODIFIED", "DELETED", "BOOKMARK"} ==> r == Ok("unknown phase: " + phase)
  {
    if phase == "ADDED" then Ok("new object:")
    else if phase == "MODIFIED" then Ok("changed object:")
    else if phase == "DELETED" then Ok("deleted object:")
    else if phase == "BOOKMARK" then
      if watchObj.None? || watchObj.value.metadata.None? then Err("TypeError")
      else
        var version := match watchObj.value.metadata.value.resourceVersion
                       case Some(v) => v
                       case None => "undefined";
        Ok("bookmark: " + version)
    else Ok("unknown phase: " + phase)
  }

  /** Whether the adapter reaches the callback for this event. */
  predicate Deliverable(e: WatchEvent) {
    PhaseLabel(e.phase, e.watchObj).Ok?
  }

  /** The callback invocations of one watch: every event whose label could be
      computed, unchanged and in arrival order. */
  function Deliver(events: seq<WatchEvent>): (calls: seq<WatchEvent>)
    ensures |calls| <= |events|
  {
    if events == [] then []
    else
      var init := Deliver(events[..|events| - 1]);
      var last := events[|events| - 1];
      if Deliverable(last) then init + [last] else init
  }

  /** Delivery distributes over a stream cut in two. */
  lemma {:induction false} DeliverAppend(a: seq<WatchEvent>, b: seq<WatchEvent>)
    ensures Deliver(a + b) == Deliver(a) + Deliver(b)
    decreases |b|
  {
    if b == [] {
      assert a + b == a;
    } else {
      var b' := b[..|b| - 1];
      assert (a + b)[..|a + b| - 1] == a + b';
      DeliverAppend(a, b');
    }
  }

  /** Every event of every phase (ADDED, MODIFIED, DELETED, BOOKMARK or any
      other) reaches the callback exactly once and unchanged, provided its
      bookmark label can be computed. */
  lemma {:induction false} DeliverForwardsAll(events: seq<WatchEvent>)
    requires forall k :: 0 <= k < |events| ==> Deliverable(events[k])
    ensures Deliver(events) == events
  {
    if events != [] {
      var init := events[..|events| - 1];
      DeliverForwardsAll(init);
      assert events == init + [events[|events| - 1]];
    }
  }
}
