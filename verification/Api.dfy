/** The stored objects, as far as the hook and the session controller look at
    them. Every datatype is a value of an object; class SandboxObject is the
    in-memory copy a program reads and edits. */
module Api {
  datatype Option<+T> = None | Some(value: T)

  /** The program's own keys, as they are written. */
  const OWN_ANNOTATIONS: seq<string> := [
    "shock.invalid/pending-spawn",
    "shock.invalid/pending-spawn-at",
    "shock.invalid/applied-spawn",
    "shock.invalid/pending-secret",
    "shock.invalid/last-order-id",
    "shock.invalid/last-order-attempt",
    "shock.invalid/last-order-secret",
    "shock.invalid/last-suspended-at",
    "shock.invalid/order-id",
    "shock.invalid/order-attempt",
    "shock.invalid/session-id"]
  const OWN_LABELS: seq<string> := [
    "app.kubernetes.io/name",
    "app.kubernetes.io/instance",
    "app.kubernetes.io/part-of",
    "shock.invalid/session-id",
    "shock.invalid/account-id"]

  type ForeignAnnotation = k: string | k !in OWN_ANNOTATIONS witness ""
  type ForeignLabel = k: string | k !in OWN_LABELS witness ""

  /** Annotation keys: the program's own are constructors, any other key is foreign. */
  datatype AnnotationKey =
    | PendingSpawn
    | PendingSpawnAt
    | AppliedSpawn
    | PendingSecret
    | LastOrderId
    | LastOrderAttempt
    | LastOrderSecret
    | LastSuspendedAt
    | OrderId
    | OrderAttempt
    | SessionId
    | OtherAnnotation(key: ForeignAnnotation)
  {
    /** The key as it is written. */
    function Text(): string {
      match this
      case PendingSpawn => OWN_ANNOTATIONS[0]
      case PendingSpawnAt => OWN_ANNOTATIONS[1]
      case AppliedSpawn => OWN_ANNOTATIONS[2]
      case PendingSecret => OWN_ANNOTATIONS[3]
      case LastOrderId => OWN_ANNOTATIONS[4]
      case LastOrderAttempt => OWN_ANNOTATIONS[5]
      case LastOrderSecret => OWN_ANNOTATIONS[6]
      case LastSuspendedAt => OWN_ANNOTATIONS[7]
      case OrderId => OWN_ANNOTATIONS[8]
      case OrderAttempt => OWN_ANNOTATIONS[9]
      case SessionId => OWN_ANNOTATIONS[10]
      case OtherAnnotation(k) => k
    }
  }

  datatype LabelKey =
    | ComponentLabel
    | InstanceLabel
    | PartOfLabel
    | SessionLabel
    | AccountLabel
    | OtherLabel(key: ForeignLabel)
  {
    function Text(): string {
      match this
      case ComponentLabel => OWN_LABELS[0]
      case InstanceLabel => OWN_LABELS[1]
      case PartOfLabel => OWN_LABELS[2]
      case SessionLabel => OWN_LABELS[3]
      case AccountLabel => OWN_LABELS[4]
      case OtherLabel(k) => k
    }
  }

  type Annotations = map<AnnotationKey, string>
  type Labels = map<LabelKey, string>

  const PART_OF := "shock"
  const COMPONENT_RUNNER := "runner"

  /** A map read as Go reads one: an absent key gives the empty string. */
  function Get<K>(m: map<K, string>, k: K): string {
    if k in m then m[k] else ""
  }

  datatype Mode = Running | Suspended

  /** A volume's source: a Secret by name, or anything else. `extra` stands for
      the fields nobody here touches. */
  datatype VolumeSource = SecretSource(secretName: string, extra: string) | OtherSource(extra: string)
  datatype Volume = Volume(name: string, source: VolumeSource)
  datatype Mount = Mount(name: string, mountPath: string, readOnly: bool, subPath: string, extra: string)
  datatype Container = Container(name: string, args: seq<string>, mounts: seq<Mount>, extra: string)
  datatype RestartPolicy = Always | OnFailure | Never

  datatype PodTemplate = PodTemplate(
    labels: Labels,
    annotations: Annotations,
    restartPolicy: RestartPolicy,
    automountToken: Option<bool>,
    gracePeriod: Option<int>,
    containers: seq<Container>,
    volumes: seq<Volume>,
    extra: string)

  datatype Spec = Spec(
    mode: Mode,
    shutdownTime: Option<int>,
    shutdownPolicy: Option<string>,
    claims: seq<string>,
    template: PodTemplate)

  datatype ConditionType = SuspendedCondition | FinishedCondition
  datatype Condition = Condition(status: bool, observedGeneration: nat)

  datatype Sandbox = Sandbox(
    name: string,
    namespace: string,
    uid: string,
    rv: nat,
    generation: nat,
    deleting: bool,
    labels: Labels,
    annotations: Annotations,
    spec: Spec,
    conditions: map<ConditionType, Condition>)
  {
    function Annotation(k: AnnotationKey): string {
      Get(annotations, k)
    }

    predicate IsRunning() {
      spec.mode == Running
    }
  }

  datatype Secret = Secret(
    name: string,
    immutable: bool,
    labels: Labels,
    annotations: Annotations,
    owners: seq<string>,
    workOrder: string)

  /** A Pod, with the template it was made from. `id` is its own identity, `owner` its
      controller's uid and `madeFrom` the resourceVersion of the Sandbox it was made from
      (for the proofs only). */
  datatype Pod = Pod(
    id: nat,
    owner: string,
    template: PodTemplate,
    terminal: bool,
    deleting: bool,
    madeFrom: nat)
  {
    const labels := template.labels
    const annotations := template.annotations
    const volumes := template.volumes
  }

  datatype Request = Request(order: string, session: string, attempt: int, account: string, workOrder: string)

  /** How names are derived. The protocol uses only that `secret` is injective;
      module Naming builds these functions. */
  datatype Names = Names(
    sandbox: string -> string,
    labelValue: string -> string,
    secret: (string, string, string) -> string)
  {
    /** No two (session, uid, order) triples share a Secret name. */
    ghost predicate SecretNamesInjective() {
      forall s, u, o, s', u', o' {:trigger secret(s, u, o), secret(s', u', o')} ::
        secret(s, u, o) == secret(s', u', o') ==> s == s' && u == u' && o == o'
    }

    ghost predicate SecretNamesNonEmpty() {
      forall s, u, o :: secret(s, u, o) != ""
    }
  }

  datatype Config = Config(
    release: string,
    names: Names,
    maxActiveSessions: int,
    maxAttempts: nat,
    gcEnabled: bool,
    gcMaxIdleAge: int,
    gcMaxIdleSessions: int)

  const WORK_ORDER_VOLUME := "work-order"

  function NamedVolume(volumes: seq<Volume>, name: string): (v: Option<Volume>)
    ensures v.Some? ==> v.value in volumes && v.value.name == name
    ensures v.None? ==> forall u :: u in volumes ==> u.name != name
  {
    if volumes == [] then None
    else if volumes[0].name == name then Some(volumes[0])
    else NamedVolume(volumes[1..], name)
  }

  /** The Secret a Pod's work-order volume names: the first such volume that has
      a Secret source. */
  function WorkOrderSecretOf(volumes: seq<Volume>): string {
    if volumes == [] then ""
    else if volumes[0].name == WORK_ORDER_VOLUME && volumes[0].source.SecretSource? then volumes[0].source.secretName
    else WorkOrderSecretOf(volumes[1..])
  }

  /** A Sandbox in memory: what Get returns, what DeepCopy duplicates and what the
      programs edit before they patch. */
  class SandboxObject {
    var name: string
    var namespace: string
    var uid: string
    var rv: nat
    var generation: nat
    var deleting: bool
    var labels: Labels
    var annotations: Annotations
    var mode: Mode
    var shutdownTime: Option<int>
    var shutdownPolicy: Option<string>
    var claims: seq<string>
    var template: PodTemplate
    var conditions: map<ConditionType, Condition>

    function Value(): Sandbox
      reads this
    {
      Sandbox(name, namespace, uid, rv, generation, deleting, labels, annotations,
              Spec(mode, shutdownTime, shutdownPolicy, claims, template), conditions)
    }

    constructor Decode(v: Sandbox)
      ensures Value() == v
    {
      name, namespace, uid, rv, generation := v.name, v.namespace, v.uid, v.rv, v.generation;
      deleting, labels, annotations := v.deleting, v.labels, v.annotations;
      mode, shutdownTime, shutdownPolicy := v.spec.mode, v.spec.shutdownTime, v.spec.shutdownPolicy;
      claims, template, conditions := v.spec.claims, v.spec.template, v.conditions;
    }

    method DeepCopy() returns (copy: SandboxObject)
      ensures fresh(copy) && copy.Value() == Value()
    {
      copy := new SandboxObject.Decode(Value());
    }
  }
}
