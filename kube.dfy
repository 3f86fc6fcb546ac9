/** The Kubernetes objects the controllers and resolvers read and write, cut
    down to the fields the modelled code sets or inspects.

    A `resource.Quantity` is represented by its canonical text, so two
    quantities are equal exactly when their texts are. */
module Kube {

  datatype ObjectKey = ObjectKey(namespace: string, name: string)

  /** The object's resource version is kept by the cluster beside the
      object (see module Cluster), not in its metadata. */
  datatype ObjectMeta = ObjectMeta(
    name: string, generateName: string, namespace: string, labels: map<string, string>)

  function NamedMeta(namespace: string, name: string): ObjectMeta
  {
    ObjectMeta(name, "", namespace, map[])
  }

  function GeneratedMeta(namespace: string, generateName: string): ObjectMeta
  {
    ObjectMeta("", generateName, namespace, map[])
  }

  /** The name the API server gives an object on creation: its own name, or
      its `generateName` followed by a server-chosen `suffix` when it has
      none. */
  function CreatedName(m: ObjectMeta, suffix: string): (name: string)
    ensures m.name != "" ==> name == m.name
    ensures m.name == "" ==> name == m.generateName + suffix
  {
    if m.name != "" then m.name else m.generateName + suffix
  }

  function KeyOf(m: ObjectMeta): ObjectKey
  {
    ObjectKey(m.namespace, m.name)
  }

  datatype ObjectReference = ObjectReference(name: string, namespace: string)

  /** A `metav1.Condition`; its transition time is not modelled. */
  datatype Condition = Condition(typ: string, status: string, reason: string, message: string)

  const ConditionTrue := "True"

  /** The conditions of a status after a transition to the state `typ`:
      one more condition, of that type and true, after the earlier ones. */
  function AppendCondition(conditions: seq<Condition>, typ: string, reason: string, message: string)
    : (c: seq<Condition>)
    ensures |c| == |conditions| + 1
    ensures c[..|conditions|] == conditions
    ensures c[|conditions|] == Condition(typ, ConditionTrue, reason, message)
  {
    conditions + [Condition(typ, ConditionTrue, reason, message)]
  }

  /** A Secret; `StringData` written by a client ends up in `data`. */
  datatype Secret = Secret(meta: ObjectMeta, data: map<string, string>)

  datatype Limits = Limits(cpu: string, memory: string)

  datatype Container = Container(
    name: string, image: string, command: seq<string>, args: seq<string>, limits: Limits)

  /** A KServe InferenceService; `ready` is what `Status.IsReady()` reports. */
  datatype InferenceService = InferenceService(meta: ObjectMeta, container: Container, ready: bool)

  datatype Deployment = Deployment(
    meta: ObjectMeta, container: Container, replicas: int, readyReplicas: nat)

  datatype Service = Service(meta: ObjectMeta, ports: seq<int>)

  datatype PersistentVolumeClaim = PersistentVolumeClaim(meta: ObjectMeta, storageRequest: string)

  /** A batch Job with the counters its controller reports. */
  datatype Job = Job(
    meta: ObjectMeta, backoffLimit: int, serviceAccount: string, container: Container,
    restartPolicy: string, succeeded: nat, failed: nat, active: nat)
}
