/** Rendered Kubernetes objects, their references, and what a live object tells about itself. */
module Manifests {
  import opened Prelude
  import opened Decimal

  const LABEL_MANAGED_BY := "app.kubernetes.io/managed-by"
  const LABEL_MANAGED_BY_VALUE := "sleepypods"
  const LABEL_INSTANCE_ID := "sleepypods.io/instance-id"
  const LABEL_INSTANCE_GENERATION := "sleepypods.io/instance-generation"
  const ANNOTATION_MATERIALIZATION_ID := "sleepypods.io/materialization-id"
  const ANNOTATION_RENDERED_HASH := "sleepypods.io/rendered-hash"
  const ANNOTATION_TEMPLATE_GENERATION := "sleepypods.io/template-generation"

  /** The labels and annotations of an object or of a pod template. */
  datatype Tags = Tags(labels: map<string, string>, annotations: map<string, string>)

  datatype ObjectMeta = ObjectMeta(name: string, namespace: Option<string>, tags: Tags)

  /** `spec` stands for everything stamping never reads or writes. */
  datatype KubernetesObject =
    | Deployment(metadata: ObjectMeta, template: Tags, spec: string)
    | StatefulSet(metadata: ObjectMeta, template: Tags, spec: string)
    | Service(metadata: ObjectMeta, spec: string)
    | Secret(metadata: ObjectMeta, spec: string)
    | PersistentVolume(metadata: ObjectMeta, reclaimPolicy: Option<string>, spec: string)
    | PersistentVolumeClaim(metadata: ObjectMeta, spec: string)
    | Raw(metadata: ObjectMeta, apiVersion: string, rawKind: string, podTemplate: Option<Tags>, spec: string)

  datatype ObjectRef = ObjectRef(apiVersion: string, kind: string, namespace: string, name: string)

  datatype ApplyOrder = VolumeOrder | ClaimOrder | SecretOrder | ServiceOrder | WorkloadOrder

  datatype ManifestObject = ManifestObject(applyOrder: ApplyOrder, resource: KubernetesObject)

  datatype Manifest = Manifest(
    instanceGeneration: Generation,
    templateGeneration: Option<Generation>,
    objects: seq<ManifestObject>)

  /** The fields of a materialization row that projection reads. */
  datatype Materialization = Materialization(
    id: string,
    instanceId: string,
    projectionGeneration: Generation,
    renderedObjects: seq<ObjectRef>)

  /** What a conditional call names: one version of one object. Zero stands for a missing string. */
  datatype LiveIdentity = LiveIdentity(uid: nat, resourceVersion: nat)

  datatype LiveObject = LiveObject(
    reclaimPolicy: Option<string>,
    identity: LiveIdentity,
    tags: Tags,
    deleting: bool,
    finalizers: seq<string>)

  function Kind(o: KubernetesObject): string {
    match o
    case Deployment(_, _, _) => "Deployment"
    case StatefulSet(_, _, _) => "StatefulSet"
    case Service(_, _) => "Service"
    case Secret(_, _) => "Secret"
    case PersistentVolume(_, _, _) => "PersistentVolume"
    case PersistentVolumeClaim(_, _) => "PersistentVolumeClaim"
    case Raw(_, _, kind, _, _) => kind
  }

  function RefOf(o: KubernetesObject): ObjectRef {
    var apiVersion :=
      match o
      case Deployment(_, _, _) => "apps/v1"
      case StatefulSet(_, _, _) => "apps/v1"
      case Raw(_, version, _, _, _) => version
      case _ => "v1";
    var namespace := match o.metadata.namespace case Some(n) => n case None => "";
    ObjectRef(apiVersion, Kind(o), namespace, o.metadata.name)
  }

  /** The pod template's tags, for the kinds that have one. */
  function TemplateTags(o: KubernetesObject): Option<Tags> {
    match o
    case Deployment(_, template, _) => Some(template)
    case StatefulSet(_, template, _) => Some(template)
    case Raw(_, _, _, podTemplate, _) => podTemplate
    case _ => None
  }

  /** Rewrite the tags of an object and of its pod template alike. */
  function MapTags(o: KubernetesObject, f: Tags -> Tags): (r: KubernetesObject)
    ensures r.metadata == o.metadata.(tags := f(o.metadata.tags))
    ensures TemplateTags(r) == match TemplateTags(o) case Some(t) => Some(f(t)) case None => None
    ensures RefOf(r) == RefOf(o) && r.spec == o.spec
    ensures o.PersistentVolume? <==> r.PersistentVolume?
    ensures o.PersistentVolume? ==> r.reclaimPolicy == o.reclaimPolicy
  {
    var metadata := o.metadata.(tags := f(o.metadata.tags));
    match o
    case Deployment(_, template, spec) => Deployment(metadata, f(template), spec)
    case StatefulSet(_, template, spec) => StatefulSet(metadata, f(template), spec)
    case Service(_, spec) => Service(metadata, spec)
    case Secret(_, spec) => Secret(metadata, spec)
    case PersistentVolume(_, policy, spec) => PersistentVolume(metadata, policy, spec)
    case PersistentVolumeClaim(_, spec) => PersistentVolumeClaim(metadata, spec)
    case Raw(_, version, kind, podTemplate, spec) =>
      Raw(metadata, version, kind, match podTemplate case Some(t) => Some(f(t)) case None => None, spec)
  }
}
