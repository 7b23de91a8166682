/**
 * The parts of Kubernetes object metadata that the controller writes:
 * names, namespaces, labels and owner references.
 */
module Kube {
  import opened V1alpha1

  const GroupVersion := "agent.tekton.dev/v1alpha1"
  const KindAgentRun := "AgentRun"

  const LabelAgentRun := "agent.tekton.dev/agentrun"
  const LabelConfig := "agent.tekton.dev/config"
  const LabelComponent := "app.kubernetes.io/component"
  const LabelManagedBy := "app.kubernetes.io/managed-by"
  const ManagedBy := "agentrun-controller"

  /**
   * A reference from an object to its owner. `controller` and
   * `blockOwnerDeletion` are false when the reference leaves them unset.
   */
  datatype OwnerReference = OwnerReference(
    apiVersion: string,
    kind: string,
    name: string,
    uid: string,
    controller: bool,
    blockOwnerDeletion: bool)

  /** The metadata of an object the controller or a tool creates. */
  datatype Meta = Meta(
    name: string,
    namespace: string,
    labels: map<string, string>,
    ownerReferences: seq<OwnerReference>)

  /** The controlling owner reference to an AgentRun, so that its objects are deleted with it. */
  function ControllerRef(run: ObjectMeta): (ref: OwnerReference)
    ensures ref.apiVersion == GroupVersion && ref.kind == KindAgentRun
    ensures ref.name == run.name && ref.uid == run.uid
    ensures ref.controller && ref.blockOwnerDeletion
  {
    OwnerReference(GroupVersion, KindAgentRun, run.name, run.uid, true, true)
  }

  /** `meta` is owned by, and controlled by, the AgentRun `run`. */
  predicate ControlledBy(meta: Meta, run: ObjectMeta)
  {
    meta.ownerReferences == [ControllerRef(run)]
  }
}
