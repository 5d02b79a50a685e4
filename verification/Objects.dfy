/** The Kubernetes objects that the reconcilers read and write, as values.
    A uid or version of zero stands for a field that is not set. */
module Objects {
  import opened Wrappers
  import Text

  type StringMap = map<string, string>

  datatype OwnerReference = OwnerReference(
    apiVersion: string,
    kind: string,
    name: string,
    uid: nat,
    controller: Option<bool>)

  datatype ObjectMeta = ObjectMeta(
    name: string,
    uid: nat,
    version: nat,
    labels: StringMap,
    annotations: StringMap,
    owners: seq<OwnerReference>)

  datatype ServiceAccount = ServiceAccount(
    meta: ObjectMeta,
    secrets: seq<string>,
    imagePullSecrets: seq<string>)

  datatype RoleBinding = RoleBinding(
    meta: ObjectMeta,
    roleName: string,
    subject: string)

  datatype SecretKey = SecretKey(name: string, key: string)

  datatype EnvVar = EnvVar(name: string, value: string, valueFrom: Option<SecretKey>)

  datatype ContainerPort = ContainerPort(name: string, port: int, protocol: string)

  datatype Probe = Probe(
    path: string,
    port: string,
    initialDelaySeconds: int,
    timeoutSeconds: int,
    periodSeconds: int,
    successThreshold: int,
    failureThreshold: int)

  /** Quantities are counted in thousandths. */
  type ResourceList = map<string, nat>

  datatype Container = Container(
    name: string,
    image: string,
    terminationMessagePolicy: string,
    env: seq<EnvVar>,
    ports: seq<ContainerPort>,
    requests: ResourceList,
    limits: ResourceList,
    readinessProbe: Option<Probe>)

  datatype PodTemplate = PodTemplate(
    labels: StringMap,
    annotations: StringMap,
    serviceAccountName: string,
    nodeSelector: StringMap,
    tolerations: seq<string>,
    affinity: Option<string>,
    containers: seq<Container>)

  datatype Backend = Deployment | KnativeService

  datatype Adapter = Adapter(
    backend: Backend,
    meta: ObjectMeta,
    selector: StringMap,
    replicas: Option<int>,
    template: PodTemplate)

  /** The merge key of an owner, which the source writes as "{kind}/{name}". */
  datatype ObjectKey = ObjectKey(kind: string, name: string)

  function KeyText(k: ObjectKey): string
  {
    k.kind + "/" + k.name
  }

  /** Kinds have no slash, so the written key stands for exactly one pair. */
  lemma KeyTextIsInjective(a: ObjectKey, b: ObjectKey)
    requires '/' !in a.kind && '/' !in b.kind && KeyText(a) == KeyText(b)
    ensures a == b
  {
    Text.SplitAfterFree(a.kind, a.name, '/');
    Text.SplitAfterFree(b.kind, b.name, '/');
    assert a.kind == Text.Split(KeyText(a), '/')[0] == b.kind;
    assert KeyText(a)[|a.kind| + 1..] == a.name && KeyText(b)[|b.kind| + 1..] == b.name;
  }

  function OwnerKey(r: OwnerReference): ObjectKey
  {
    ObjectKey(r.kind, r.name)
  }

  /** The first owner marked as controller, like `metav1.GetControllerOf`. */
  function ControllerOf(owners: seq<OwnerReference>): (r: Option<OwnerReference>)
    ensures r.Some? ==> r.value in owners && r.value.controller == Some(true)
    ensures r.Some? ==> exists i :: 0 <= i < |owners| && owners[i] == r.value
                                    && forall j :: 0 <= j < i ==> owners[j].controller != Some(true)
    ensures r.None? <==> forall i :: 0 <= i < |owners| ==> owners[i].controller != Some(true)
  {
    if owners == [] then None
    else if owners[0].controller == Some(true) then Some(owners[0])
    else ControllerOf(owners[1..])
  }

  predicate HasLabels(labels: StringMap, selector: StringMap)
  {
    forall k <- selector :: k in labels && labels[k] == selector[k]
  }
}
