/**
 * Kubernetes, controller-runtime and App-CR vocabulary shared by the model:
 * object metadata, config maps and secrets, the App custom resource, the
 * reconcile result, and the error kinds the operator distinguishes.
 */
module Kube {

  datatype Option<T> = None | Some(value: T)

  /** The errors the operator tells apart: an API "not found" and anything else. */
  datatype Error = NotFound | Failure(msg: string)

  datatype Result<T> = Ok(value: T) | Err(error: Error)

  type Labels = map<string, string>

  /** The parts of a Kubernetes ObjectMeta the operator reads or writes. */
  datatype ObjectMeta = ObjectMeta(name: string, namespace: string, labels: Labels)

  const EmptyMeta := ObjectMeta("", "", map[])

  datatype ConfigMap = ConfigMap(meta: ObjectMeta, data: map<string, string>)

  datatype Secret = Secret(meta: ObjectMeta, data: map<string, string>)

  /** `appv1.AppExtraConfig`. */
  datatype ExtraConfig = ExtraConfig(kind: string, name: string, namespace: string, priority: int)

  /** `spec.userConfig.configMap` of an App. */
  datatype ConfigMapRef = ConfigMapRef(name: string, namespace: string)

  /** The App custom resource, reduced to the fields the operator reads or writes. */
  datatype App = App(meta: ObjectMeta, resourceVersion: string, version: string,
                     userConfig: ConfigMapRef, extraConfigs: seq<ExtraConfig>)

  /** `ctrl.Result`; durations are in seconds. */
  datatype CtrlResult = CtrlResult(requeue: bool, requeueAfter: nat) {
    predicate IsZero() { !requeue && requeueAfter == 0 }
  }

  const ZeroResult := CtrlResult(false, 0)

  /** The five-minute requeue used while the observability bundle app is not there yet. */
  const RequeueFiveMinutes := CtrlResult(false, 5 * 60)

  /** The labels `AddCommonLabels` puts on every generated object; their values are defined outside this model. */
  const CommonLabels: Labels

  /** `AddCommonLabels`: the common labels are written over the given ones. */
  function AddCommonLabels(labels: Labels): (r: Labels)
    ensures r.Keys == labels.Keys + CommonLabels.Keys
    ensures forall k :: k in CommonLabels ==> r[k] == CommonLabels[k]
    ensures forall k :: k in labels && k !in CommonLabels ==> r[k] == labels[k]
  {
    labels + CommonLabels
  }

  /** The name and namespace a client looks an object up by. */
  datatype NamespacedName = NamespacedName(name: string, namespace: string)

  function KeyOf(meta: ObjectMeta): NamespacedName
  {
    NamespacedName(meta.name, meta.namespace)
  }
}
