/** The two watch handlers of the OpenShift scenario: a Deployment event
    yields one ReplicaSet, a ReplicaSet event yields its Pods. The descriptors
    are pure record construction; the submissions are sequential create calls
    on the cluster. The pacing delays before each create are timing only and
    are not modelled. */
module Reconcilers {
  import opened Values
  import opened Resources
  import opened KubeApi

  /** The guard both handlers start with: namespace and name present and
      not empty. */
  predicate HasIdentity(w: Workload) {
    w.metadata.Some? && Truthy(w.metadata.value.namespace) && Truthy(w.metadata.value.name)
  }

  /** `ownerReferences` of a child of `parent`. */
  function OwnerReferences(parent: Workload): (refs: seq<OwnerReference>)
    requires HasIdentity(parent)
    ensures |refs| <= 1
    ensures refs != [] <==>
      Truthy(parent.apiVersion) && Truthy(parent.kind) && Truthy(parent.metadata.value.uid)
    ensures refs != [] ==> OwnedBy(EmptyMeta.(ownerReferences := Some(refs)), parent)
  {
    var meta := parent.metadata.value;
    if Truthy(parent.apiVersion) && Truthy(parent.kind) && Truthy(meta.uid) then
      [OwnerReference(parent.apiVersion.value, parent.kind.value, meta.name.value, meta.uid.value)]
    else []
  }

  /** `apiObj.spec?.replicas || 1`: a missing count and a zero count both
      give one; any other count is kept as it is. */
  function ReplicasOr1(spec: Option<WorkloadSpec>): (n: int)
    ensures n != 0
    ensures spec.Some? && spec.value.replicas.Some? && spec.value.replicas.value != 0 ==>
      n == spec.value.replicas.value
    ensures spec.None? || spec.value.replicas.None? || spec.value.replicas.value == 0 ==> n == 1
  {
    if spec.Some? && spec.value.replicas.Some? && spec.value.replicas.value != 0
    then spec.value.replicas.value
    else 1
  }

  function Selector(w: Workload): Option<Json> {
    if w.spec.Some? then w.spec.value.selector else None
  }

  function Template(w: Workload): Option<PodTemplateSpec> {
    if w.spec.Some? then w.spec.value.template else None
  }

  /** `...apiObj.spec?.template?.metadata`: the fields spread into a Pod. */
  function TemplateMeta(w: Workload): ObjectMeta {
    var t := Template(w);
    if t.Some? && t.value.metadata.Some? then t.value.metadata.value else EmptyMeta
  }

  /** `apiObj.spec?.template?.spec`. */
  function TemplateSpec(w: Workload): Option<Json> {
    var t := Template(w);
    if t.Some? then t.value.spec else None
  }

  // ---------------------------------------------------------------------------
  // Deployment -> ReplicaSet

  /** The ReplicaSet descriptor built for a Deployment. */
  function ReplicaSetFor(d: Workload): (rs: Workload)
    requires HasIdentity(d)
    ensures rs.apiVersion == Some("apps/v1") && rs.kind == Some("ReplicaSet")
    ensures rs.metadata.Some? && rs.spec.Some?
    ensures rs.metadata.value.namespace == d.metadata.value.namespace
    ensures rs.metadata.value.name.None?
    ensures rs.metadata.value.generateName == Some(d.metadata.value.name.value + "-")
    ensures rs.metadata.value.labels ==
      Some(map["app" := d.metadata.value.name.value, "deployment" := d.metadata.value.name.value])
    ensures OwnedBy(rs.metadata.value, d) <==>
      Truthy(d.apiVersion) && Truthy(d.kind) && Truthy(d.metadata.value.uid)
    ensures rs.metadata.value.ownerReferences == Some(OwnerReferences(d))
    ensures rs.metadata.value.uid.None? && rs.metadata.value.resourceVersion.None?
    ensures rs.metadata.value.annotations.None?
    ensures rs.spec.value.replicas == Some(ReplicasOr1(d.spec))
    ensures rs.spec.value.selector == Selector(d) && rs.spec.value.template == Template(d)
  {
    var meta := d.metadata.value;
    var name := meta.name.value;
    Workload(
      Some("apps/v1"),
      Some("ReplicaSet"),
      Some(EmptyMeta.(
        namespace := meta.namespace,
        generateName := Some(name + "-"),
        ownerReferences := Some(OwnerReferences(d)),
        labels := Some(map["app" := name, "deployment" := name]))),
      Some(WorkloadSpec(Some(ReplicasOr1(d.spec)), Selector(d), Template(d))))
  }

  /** The ReplicaSets one Deployment event asks for: one, or none when the
      guard fails. */
  function DesiredReplicaSets(d: Workload): (rss: seq<Workload>)
    ensures HasIdentity(d) ==> rss == [ReplicaSetFor(d)]
    ensures !HasIdentity(d) ==> rss == []
  {
    if HasIdentity(d) then [ReplicaSetFor(d)] else []
  }

  // ---------------------------------------------------------------------------
  // ReplicaSet -> Pods

  /** The Pod descriptor built on each iteration for a ReplicaSet. */
  function PodFor(rs: Workload): (pod: Pod)
    requires HasIdentity(rs)
    ensures pod.apiVersion == "v1" && pod.kind == "Pod"
    ensures pod.metadata.namespace == rs.metadata.value.namespace
    ensures pod.metadata.generateName == Some(rs.metadata.value.name.value + "-")
    ensures OwnedBy(pod.metadata, rs) <==>
      Truthy(rs.apiVersion) && Truthy(rs.kind) && Truthy(rs.metadata.value.uid)
    ensures pod.metadata.ownerReferences == Some(OwnerReferences(rs))
    ensures pod.metadata.(namespace := TemplateMeta(rs).namespace,
                          generateName := TemplateMeta(rs).generateName,
                          ownerReferences := TemplateMeta(rs).ownerReferences) == TemplateMeta(rs)
    ensures pod.spec == TemplateSpec(rs)
    ensures pod.status == PodStatus("Running")
  {
    var meta := rs.metadata.value;
    Pod(
      "v1",
      "Pod",
      TemplateMeta(rs).(
        namespace := meta.namespace,
        generateName := Some(meta.name.value + "-"),
        ownerReferences := Some(OwnerReferences(rs))),
      TemplateSpec(rs),
      PodStatus("Running"))
  }

  /** The number of loop iterations `for (i = 0; i < expectedReplicas; i++)`
      runs; a negative count runs none. */
  function PodCount(rs: Workload): (n: nat)
    ensures !HasIdentity(rs) ==> n == 0
    ensures HasIdentity(rs) && ReplicasOr1(rs.spec) > 0 ==> n == ReplicasOr1(rs.spec)
    ensures HasIdentity(rs) && ReplicasOr1(rs.spec) < 0 ==> n == 0
  {
    if HasIdentity(rs) && ReplicasOr1(rs.spec) > 0 then ReplicasOr1(rs.spec) else 0
  }

  /** The Pods one ReplicaSet event asks for: `PodCount` identical Pods. */
  function DesiredPods(rs: Workload): (pods: seq<Pod>)
    ensures |pods| == PodCount(rs)
    ensures forall p :: p in pods ==> HasIdentity(rs) && p == PodFor(rs)
  {
    if HasIdentity(rs) then Repeat(PodFor(rs), PodCount(rs)) else []
  }

  // ---------------------------------------------------------------------------
  // Handlers

  /** The two handlers, keyed by the path they watch. */
  datatype Reconciler = DeploymentToReplicaSet | ReplicaSetToPods

  function WorkloadObjects(ws: seq<Workload>): (rs: seq<Resource>)
    ensures |rs| == |ws| && forall k :: 0 <= k < |ws| ==> rs[k] == WorkloadObject(ws[k])
  {
    seq(|ws|, k requires 0 <= k < |ws| => WorkloadObject(ws[k]))
  }

  function PodObjects(ps: seq<Pod>): (rs: seq<Resource>)
    ensures |rs| == |ps| && forall k :: 0 <= k < |ps| ==> rs[k] == PodObject(ps[k])
  {
    seq(|ps|, k requires 0 <= k < |ps| => PodObject(ps[k]))
  }

  /** The create calls a handler plans for one observed object, in order. */
  function Children(r: Reconciler, obj: Workload): seq<Resource> {
    match r
    case DeploymentToReplicaSet => WorkloadObjects(DesiredReplicaSets(obj))
    case ReplicaSetToPods => PodObjects(DesiredPods(obj))
  }

  /** The Deployment handler: one create call for the ReplicaSet, or nothing
      when the guard fails. The phase is not consulted. */
  method ReconcileDeployment(api: ApiServer, event: WatchEvent) returns (completed: bool)
    modifies api
    ensures api.submitted == old(api.submitted) + Children(DeploymentToReplicaSet, event.apiObj)
    ensures completed ==
      Completes(api.replies, |old(api.submitted)|, |Children(DeploymentToReplicaSet, event.apiObj)|, false)
  {
    var d := event.apiObj;
    if !HasIdentity(d) {
      return true;
    }
    var replicaSet := ReplicaSetFor(d);
    var out := api.Create(WorkloadObject(replicaSet));
    completed := out.Created?;
  }

  /** The ReplicaSet handler: one create call per loop iteration, in order;
      a failed create rejects the handler and ends the loop. The phase is not
      consulted. */
  method ReconcileReplicaSet(api: ApiServer, event: WatchEvent) returns (completed: bool)
    modifies api
    ensures var pods := Children(ReplicaSetToPods, event.apiObj);
      api.submitted ==
        old(api.submitted) + pods[..CallsMade(api.replies, |old(api.submitted)|, |pods|, false)]
    ensures completed ==
      Completes(api.replies, |old(api.submitted)|, |Children(ReplicaSetToPods, event.apiObj)|, false)
  {
    var rs := event.apiObj;
    ghost var start := |api.submitted|;
    ghost var planned := Children(ReplicaSetToPods, rs);
    if !HasIdentity(rs) {
      return true;
    }
    var expectedReplicas := ReplicasOr1(rs.spec);
    var i := 0;
    while i < expectedReplicas
      invariant 0 <= i <= |planned|
      invariant api.submitted == old(api.submitted) + planned[..i]
      invariant Completes(api.replies, start, i, false)
    {
      var pod := PodFor(rs);
      var out := api.Create(PodObject(pod));
      assert planned[..i + 1] == planned[..i] + [PodObject(pod)];
      if out.Failed? {
        CallsMadeStop(api.replies, start, |planned|, false, i);
        return false;
      }
      i := i + 1;
    }
    CallsMadeAll(api.replies, start, |planned|, false);
    completed := true;
  }

  method Reconcile(api: ApiServer, r: Reconciler, event: WatchEvent) returns (completed: bool)
    modifies api
    ensures var planned := Children(r, event.apiObj);
      api.submitted ==
        old(api.submitted) + planned[..CallsMade(api.replies, |old(api.submitted)|, |planned|, false)]
    ensures completed == Completes(api.replies, |old(api.submitted)|, |Children(r, event.apiObj)|, false)
  {
    match r
    case DeploymentToReplicaSet =>
      completed := ReconcileDeployment(api, event);
      CallsMadeOfOne(api.replies, |old(api.submitted)|, |Children(r, event.apiObj)|);
    case ReplicaSetToPods =>
      completed := ReconcileReplicaSet(api, event);
  }

  /** A plan of at most one call is carried out whole. */
  lemma CallsMadeOfOne(replies: seq<Outcome>, start: nat, total: nat)
    requires total <= 1
    ensures CallsMade(replies, start, total, false) == total
  {
  }

  // ---------------------------------------------------------------------------
  // A watched stream

  /** Every reply from call number `start` on is a success. */
  predicate AllCreatedFrom(replies: seq<Outcome>, start: nat) {
    forall i :: start <= i < |replies| ==> replies[i] == Created
  }

  /** The calls each callback invocation plans, one list per invocation. */
  function Plans(r: Reconciler, calls: seq<WatchEvent>): (plans: seq<seq<Resource>>)
    ensures |plans| == |calls| && forall k :: 0 <= k < |calls| ==> plans[k] == Children(r, calls[k].apiObj)
  {
    seq(|calls|, k requires 0 <= k < |calls| => Children(r, calls[k].apiObj))
  }

  lemma PlansSnoc(r: Reconciler, calls: seq<WatchEvent>, e: WatchEvent)
    ensures Plans(r, calls + [e]) == Plans(r, calls) + [Children(r, e.apiObj)]
  {
    assert Plans(r, calls + [e])[|calls|] == Children(r, e.apiObj);
  }

  function Flatten<T>(plans: seq<seq<T>>): seq<T> {
    if plans == [] then [] else Flatten(plans[..|plans| - 1]) + plans[|plans| - 1]
  }

  lemma FlattenSnoc<T>(plans: seq<seq<T>>, p: seq<T>)
    ensures Flatten(plans + [p]) == Flatten(plans) + p
  {
    assert (plans + [p])[..|plans|] == plans;
  }

  /** The create calls planned for a sequence of callback invocations. */
  function ChildrenOfCalls(r: Reconciler, calls: seq<WatchEvent>): seq<Resource> {
    Flatten(Plans(r, calls))
  }

  /** The create calls planned for a watched stream of events. */
  function StreamChildren(r: Reconciler, events: seq<WatchEvent>): seq<Resource> {
    ChildrenOfCalls(r, Deliver(events))
  }

  lemma DeliverStep(events: seq<WatchEvent>, i: nat)
    requires i < |events|
    ensures Deliver(events[..i + 1]) ==
      Deliver(events[..i]) + (if Deliverable(events[i]) then [events[i]] else [])
  {
    assert events[..i + 1][..i] == events[..i];
  }

  lemma ChildrenOfCallsStep(r: Reconciler, calls: seq<WatchEvent>, e: WatchEvent)
    ensures ChildrenOfCalls(r, calls + [e]) == ChildrenOfCalls(r, calls) + Children(r, e.apiObj)
  {
    PlansSnoc(r, calls, e);
    FlattenSnoc(Plans(r, calls), Children(r, e.apiObj));
  }

  /** How many create calls the handlers of the first `n` plans make, the
      first being call number `start`. */
  function Used<T>(replies: seq<Outcome>, start: nat, plans: seq<seq<T>>, n: nat): nat
    requires n <= |plans|
  {
    if n == 0 then 0
    else
      var used := Used(replies, start, plans, n - 1);
      used + CallsMade(replies, start + used, |plans[n - 1]|, false)
  }

  /** The create calls made for the first `n` plans, the first being call
      number `start`: each handler makes its planned calls up to and
      including its first failure, and the next handler starts after them. */
  function Made<T>(replies: seq<Outcome>, start: nat, plans: seq<seq<T>>, n: nat): seq<T>
    requires n <= |plans|
  {
    if n == 0 then []
    else
      Made(replies, start, plans, n - 1) +
        plans[n - 1][..CallsMade(replies, start + Used(replies, start, plans, n - 1), |plans[n - 1]|, false)]
  }

  /** One more plan: its handler's calls follow those made before it. */
  lemma MadeNext<T>(replies: seq<Outcome>, start: nat, plans: seq<seq<T>>, n: nat)
    requires n < |plans|
    ensures Made(replies, start, plans, n + 1) ==
      Made(replies, start, plans, n) + plans[n][..CallsMade(replies, start + Used(replies, start, plans, n), |plans[n]|, false)]
  {
  }

  lemma {:induction false} MadeLength<T>(replies: seq<Outcome>, start: nat, plans: seq<seq<T>>, n: nat)
    requires n <= |plans|
    ensures |Made(replies, start, plans, n)| == Used(replies, start, plans, n)
  {
    if n > 0 {
      MadeLength(replies, start, plans, n - 1);
    }
  }

  /** A later plan does not change the calls made for the earlier ones. */
  lemma {:induction false} MadeExtend<T>(replies: seq<Outcome>, start: nat, plans: seq<seq<T>>, planned: seq<T>, n: nat)
    requires n <= |plans|
    ensures Made(replies, start, plans + [planned], n) == Made(replies, start, plans, n)
    ensures Used(replies, start, plans + [planned], n) == Used(replies, start, plans, n)
  {
    if n > 0 {
      MadeExtend(replies, start, plans, planned, n - 1);
      assert (plans + [planned])[n - 1] == plans[n - 1];
    }
  }

  /** When every create from call number `start` on succeeds, every planned
      call is made. */
  lemma {:induction false} MadeAllCreated<T>(replies: seq<Outcome>, start: nat, plans: seq<seq<T>>, n: nat)
    requires AllCreatedFrom(replies, start)
    requires n <= |plans|
    ensures Made(replies, start, plans, n) == Flatten(plans[..n])
  {
    if n > 0 {
      MadeAllCreated(replies, start, plans, n - 1);
      var used, planned := Used(replies, start, plans, n - 1), plans[n - 1];
      assert Completes(replies, start + used, |planned|, false);
      CallsMadeAll(replies, start + used, |planned|, false);
      assert planned[..|planned|] == planned;
      assert plans[..n][..n - 1] == plans[..n - 1];
    }
  }

  /** The create calls a sequence of callback invocations makes. */
  function StreamCalls(r: Reconciler, replies: seq<Outcome>, start: nat, calls: seq<WatchEvent>): seq<Resource> {
    Made(replies, start, Plans(r, calls), |calls|)
  }

  /** When every create from call number `start` on succeeds, the handlers
      make exactly the calls they plan. */
  lemma StreamCallsAllCreated(r: Reconciler, replies: seq<Outcome>, start: nat, calls: seq<WatchEvent>)
    requires AllCreatedFrom(replies, start)
    ensures StreamCalls(r, replies, start, calls) == ChildrenOfCalls(r, calls)
  {
    MadeAllCreated(replies, start, Plans(r, calls), |calls|);
    assert Plans(r, calls)[..|calls|] == Plans(r, calls);
  }

  /** The adapter's callback for one event: the phase label is computed
      (the source logs it) and, unless that throws, the handler runs and makes
      its planned calls up to and including its first failure. */
  method OnEvent(api: ApiServer, r: Reconciler, event: WatchEvent) returns (forwarded: bool)
    modifies api
    ensures forwarded == Deliverable(event)
    ensures !forwarded ==> api.submitted == old(api.submitted)
    ensures var planned := Children(r, event.apiObj);
      forwarded ==>
        api.submitted ==
          old(api.submitted) + planned[..CallsMade(api.replies, |old(api.submitted)|, |planned|, false)]
  {
    var logLine := PhaseLabel(event.phase, event.watchObj);
    forwarded := logLine.Ok?;
    if forwarded {
      // a rejected handler rejects the callback; the adapter goes on with the next event
      var _ := Reconcile(api, r, event);
    }
  }

  /** `watchPath(path, handler)` over the events the stream delivers: each
      event goes through the adapter and, when it reaches the callback, the
      handler runs to completion before the next event. A rejected handler
      does not stop the stream: every delivered event's handler makes its
      calls, in order. When every create succeeds, those are exactly the
      planned children of every delivered event. */
  method WatchPath(api: ApiServer, r: Reconciler, events: seq<WatchEvent>) returns (delivered: seq<WatchEvent>)
    modifies api
    ensures delivered == Deliver(events)
    ensures api.submitted == old(api.submitted) + StreamCalls(r, api.replies, |old(api.submitted)|, delivered)
    ensures AllCreatedFrom(api.replies, |old(api.submitted)|) ==>
      api.submitted == old(api.submitted) + StreamChildren(r, events)
  {
    ghost var initial := api.submitted;
    ghost var start := |initial|;
    delivered := [];
    var i := 0;
    while i < |events|
      invariant 0 <= i <= |events|
      invariant delivered == Deliver(events[..i])
      invariant api.submitted == initial + StreamCalls(r, api.replies, start, delivered)
    {
      var event := events[i];
      DeliverStep(events, i);
      var forwarded := WatchTurn(api, r, event, start, initial, delivered);
      if forwarded {
        delivered := delivered + [event];
      }
      i := i + 1;
    }
    assert events[..i] == events;
    if AllCreatedFrom(api.replies, start) {
      StreamCallsAllCreated(r, api.replies, start, delivered);
    }
  }

  /** One turn of the watch loop: the event goes through the adapter, and
      the calls made so far stay those of the delivered events. */
  method WatchTurn(api: ApiServer, r: Reconciler, event: WatchEvent, ghost start: nat, ghost initial: seq<Resource>,
                   ghost delivered: seq<WatchEvent>)
    returns (forwarded: bool)
    modifies api
    requires start == |initial|
    requires api.submitted == initial + StreamCalls(r, api.replies, start, delivered)
    ensures forwarded == Deliverable(event)
    ensures !forwarded ==> api.submitted == old(api.submitted)
    ensures forwarded ==> api.submitted == initial + StreamCalls(r, api.replies, start, delivered + [event])
  {
    ghost var before := api.submitted;
    forwarded := OnEvent(api, r, event);
    if forwarded {
      StreamCallsStep(r, api.replies, start, initial, delivered, event, before, api.submitted);
    }
  }

  /** The calls made after one more callback invocation: those made before,
      then the ones its handler made before its first rejected create. */
  lemma StreamCallsStep(r: Reconciler, replies: seq<Outcome>, start: nat, initial: seq<Resource>,
                        calls: seq<WatchEvent>, e: WatchEvent, before: seq<Resource>, after: seq<Resource>)
    requires start == |initial|
    requires before == initial + StreamCalls(r, replies, start, calls)
    requires var planned := Children(r, e.apiObj);
      after == before + planned[..CallsMade(replies, |before|, |planned|, false)]
    ensures after == initial + StreamCalls(r, replies, start, calls + [e])
  {
    PlansSnoc(r, calls, e);
    MadeStep(replies, start, initial, Plans(r, calls), Children(r, e.apiObj), before, after);
  }

  /** The calls made after one more handler ran: those made before, then the
      ones the new handler made before its first rejected create. */
  lemma MadeStep<T>(replies: seq<Outcome>, start: nat, initial: seq<T>, plans: seq<seq<T>>, planned: seq<T>,
                    before: seq<T>, after: seq<T>)
    requires start == |initial|
    requires before == initial + Made(replies, start, plans, |plans|)
    requires after == before + planned[..CallsMade(replies, |before|, |planned|, false)]
    ensures after == initial + Made(replies, start, plans + [planned], |plans| + 1)
  {
    var done, used := Made(replies, start, plans, |plans|), Used(replies, start, plans, |plans|);
    MadeLength(replies, start, plans, |plans|);
    MadeExtend(replies, start, plans, planned, |plans|);
    MadeSnoc(replies, start, plans, planned, done, used);
    AppendAssoc(initial, done, planned[..CallsMade(replies, start + used, |planned|, false)]);
  }

  lemma MadeSnoc<T>(replies: seq<Outcome>, start: nat, plans: seq<seq<T>>, planned: seq<T>, done: seq<T>, used: nat)
    requires Made(replies, start, plans + [planned], |plans|) == done
    requires Used(replies, start, plans + [planned], |plans|) == used
    ensures Made(replies, start, plans + [planned], |plans| + 1) ==
      done + planned[..CallsMade(replies, start + used, |planned|, false)]
  {
    MadeNext(replies, start, plans + [planned], |plans|);
    assert (plans + [planned])[|plans|] == planned;
  }

  lemma AppendAssoc<T>(a: seq<T>, b: seq<T>, c: seq<T>)
    ensures (a + b) + c == a + (b + c)
  {
  }

  // ---------------------------------------------------------------------------
  // Properties

  /** Handlers do not deduplicate: the same event delivered twice plans its
      children twice. */
  lemma RedeliveryIsNotDeduplicated(r: Reconciler, events: seq<WatchEvent>, e: WatchEvent)
    requires Deliverable(e)
    ensures StreamChildren(r, events + [e, e]) ==
      StreamChildren(r, events) + Children(r, e.apiObj) + Children(r, e.apiObj)
  {
    DeliverAppend(events, [e, e]);
    DeliverForwardsAll([e, e]);
    var d := Deliver(events);
    assert d + [e, e] == (d + [e]) + [e];
    ChildrenOfCallsStep(r, d + [e], e);
    ChildrenOfCallsStep(r, d, e);
  }

  /** The phase is never consulted: two streams that deliver the same objects
      plan the same children, whatever their phases. */
  lemma {:induction false} PhaseIsIgnored(r: Reconciler, a: seq<WatchEvent>, b: seq<WatchEvent>)
    requires |a| == |b|
    requires forall k :: 0 <= k < |a| ==> Deliverable(a[k]) && Deliverable(b[k])
    requires forall k :: 0 <= k < |a| ==> a[k].apiObj == b[k].apiObj
    ensures StreamChildren(r, a) == StreamChildren(r, b)
  {
    DeliverForwardsAll(a);
    DeliverForwardsAll(b);
    CallsAgree(r, a, b);
  }

  lemma CallsAgree(r: Reconciler, a: seq<WatchEvent>, b: seq<WatchEvent>)
    requires |a| == |b|
    requires forall k :: 0 <= k < |a| ==> a[k].apiObj == b[k].apiObj
    ensures ChildrenOfCalls(r, a) == ChildrenOfCalls(r, b)
  {
    assert Plans(r, a) == Plans(r, b);
  }

  /** The server's view of a created object whose name it generated. */
  function Admitted(w: Workload, name: string, uid: string): Workload
    requires w.metadata.Some?
  {
    w.(metadata := Some(w.metadata.value.(name := Some(name), uid := Some(uid))))
  }

  /** End to end: a Deployment with `R > 0` replicas, a uid, an apiVersion and
      a kind yields one ReplicaSet it owns with `R` replicas and its selector;
      once the server has named that ReplicaSet, it yields `R` Running Pods,
      each owned by the ReplicaSet, in the Deployment's namespace, running the
      Deployment's pod template spec. */
  lemma DeploymentYieldsOwnedRunningPods(d: Workload, rsName: string, rsUid: string)
    requires HasIdentity(d)
    requires Truthy(d.apiVersion) && Truthy(d.kind) && Truthy(d.metadata.value.uid)
    requires d.spec.Some? && d.spec.value.replicas.Some? && d.spec.value.replicas.value > 0
    requires rsName != "" && rsUid != ""
    ensures |DesiredReplicaSets(d)| == 1
    ensures var rs := DesiredReplicaSets(d)[0];
      && OwnedBy(rs.metadata.value, d)
      && rs.spec.value.replicas == d.spec.value.replicas
      && rs.spec.value.selector == d.spec.value.selector
    ensures var created := Admitted(DesiredReplicaSets(d)[0], rsName, rsUid);
      var pods := DesiredPods(created);
      && |pods| == d.spec.value.replicas.value
      && forall p :: p in pods ==>
           && OwnedBy(p.metadata, created)
           && p.metadata.namespace == d.metadata.value.namespace
           && p.spec == TemplateSpec(d)
           && p.status.phase == "Running"
  {
    var rs := ReplicaSetFor(d);
    var created := Admitted(rs, rsName, rsUid);
    assert HasIdentity(created);
    assert TemplateSpec(created) == TemplateSpec(d);
  }
}
