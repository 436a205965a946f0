/** The Kubernetes object records the reconcilers read and build. Every field
    the source treats as optional is an `Option`; payloads the test environment only
    copies (selectors, pod specs, manifests) are `Json`. */
module Resources {
  import opened Values

  datatype OwnerReference = OwnerReference(apiVersion: string, kind: string, name: string, uid: string)

  datatype ObjectMeta = ObjectMeta(
    namespace: Option<string>,
    name: Option<string>,
    generateName: Option<string>,
    uid: Option<string>,
    resourceVersion: Option<string>,
    labels: Option<map<string, string>>,
    annotations: Option<map<string, string>>,
    ownerReferences: Option<seq<OwnerReference>>)

  /** The value of spreading `undefined` into an object literal: no field set. */
  const EmptyMeta := ObjectMeta(None, None, None, None, None, None, None, None)

  datatype PodTemplateSpec = PodTemplateSpec(metadata: Option<ObjectMeta>, spec: Option<Json>)

  datatype WorkloadSpec = WorkloadSpec(replicas: Option<int>, selector: Option<Json>, template: Option<PodTemplateSpec>)

  /** A V1Deployment or a V1ReplicaSet: the fields the handlers read and write
      are the same for both kinds. */
  datatype Workload = Workload(
    apiVersion: Option<string>,
    kind: Option<string>,
    metadata: Option<ObjectMeta>,
    spec: Option<WorkloadSpec>)

  datatype PodStatus = PodStatus(phase: string)

  datatype Pod = Pod(apiVersion: string, kind: string, metadata: ObjectMeta, spec: Option<Json>, status: PodStatus)

  /** Anything handed to the cluster's create call. */
  datatype Resource = WorkloadObject(workload: Workload) | PodObject(pod: Pod) | Manifest(document: Json)

  /** The lineage contract: `meta` names `parent` as its owner. */
  predicate OwnedBy(meta: ObjectMeta, parent: Workload) {
    && parent.apiVersion.Some? && parent.kind.Some? && parent.metadata.Some?
    && parent.metadata.value.name.Some? && parent.metadata.value.uid.Some?
    && meta.ownerReferences.Some?
    && OwnerReference(parent.apiVersion.value, parent.kind.value,
                      parent.metadata.value.name.value, parent.metadata.value.uid.value)
       in meta.ownerReferences.value
  }
}
