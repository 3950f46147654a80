/**
 * pkg/resource/podlogs: the two PodLogs objects that tell the logging agent
 * which pods to scrape, and the getter that splits each into its metadata and
 * its spec. Which pods an object selects is given by Kubernetes label-selector
 * semantics: every `matchLabels` pair must be present, and every requirement
 * must hold, where `NotIn` also holds when the key is absent.
 */
module PodLogs {
  import opened Kube
  import Key

  /** `label.ManagedBy` of k8smetadata; its value is not part of this model. */
  const ManagedByLabel: string

  const Namespace := "giantswarm"
  const ByPodName := "by-pod"
  const ByNamespaceName := "by-namespace"
  const Enabled := "enabled"
  const Disabled := "disabled"
  const PodTenantLabel := "__meta_kubernetes_pod_label_giantswarm_io_logging_tenant"
  const NamespaceTenantLabel := "__meta_kubernetes_namespace_label_namespace_giantswarm_io_logging_tenant"

  datatype Operator = In | NotIn | Exists | DoesNotExist

  datatype Requirement = Requirement(key: string, op: Operator, values: seq<string>)

  datatype LabelSelector = LabelSelector(matchLabels: map<string, string>, matchExpressions: seq<Requirement>)

  datatype RelabelConfig = RelabelConfig(action: string, sourceLabels: seq<string>, targetLabel: string,
                                         replacement: string, regex: string)

  datatype Spec = Spec(selector: LabelSelector, namespaceSelector: LabelSelector, relabelConfigs: seq<RelabelConfig>)

  datatype PodLogsObject = PodLogsObject(meta: ObjectMeta, spec: Spec)

  /** Whether one requirement of a selector holds for a set of labels. */
  predicate Holds(r: Requirement, labels: Labels)
  {
    match r.op
    case In => r.key in labels && labels[r.key] in r.values
    case NotIn => r.key !in labels || labels[r.key] !in r.values
    case Exists => r.key in labels
    case DoesNotExist => r.key !in labels
  }

  /** Every requirement from index `i` on holds. */
  predicate AllHold(rs: seq<Requirement>, labels: Labels, i: nat)
    requires i <= |rs|
    decreases |rs| - i
  {
    i == |rs| || (Holds(rs[i], labels) && AllHold(rs, labels, i + 1))
  }

  /** `AllHold` is the conjunction over the requirements from `i` on. */
  lemma {:induction false} AllHoldMeansEach(rs: seq<Requirement>, labels: Labels, i: nat)
    requires i <= |rs|
    ensures AllHold(rs, labels, i) <==> forall k :: i <= k < |rs| ==> Holds(rs[k], labels)
    decreases |rs| - i
  {
    if i < |rs| {
      AllHoldMeansEach(rs, labels, i + 1);
    }
  }

  /** Label-selector matching: all `matchLabels` pairs present, all requirements holding. */
  predicate Matches(s: LabelSelector, labels: Labels)
  {
    (forall k :: k in s.matchLabels ==> k in labels && labels[k] == s.matchLabels[k])
    && AllHold(s.matchExpressions, labels, 0)
  }

  /** A pod with labels `pod` in a namespace with labels `ns` is scraped by `p`. */
  predicate Selects(p: PodLogsObject, pod: Labels, ns: Labels)
  {
    Matches(p.spec.selector, pod) && Matches(p.spec.namespaceSelector, ns)
  }

  /** Copy the tenant label `source` into `tenant_id` unchanged. */
  function TenantRelabel(source: string): RelabelConfig
  {
    RelabelConfig("replace", [source], "tenant_id", "$1", "(.*)")
  }

  function Meta(name: string): ObjectMeta
  {
    ObjectMeta(name, Namespace, map[ManagedByLabel := "logging-operator"])
  }

  /** `by-pod`: pods labelled enabled, in namespaces that are not. */
  const ByPod := PodLogsObject(Meta(ByPodName), Spec(
    LabelSelector(map[Key.LoggingLabel := Enabled], []),
    LabelSelector(map[], [Requirement(Key.LoggingLabel, NotIn, [Enabled])]),
    [TenantRelabel(PodTenantLabel)]))

  /** `by-namespace`: in namespaces labelled enabled, every pod not labelled disabled. */
  const ByNamespace := PodLogsObject(Meta(ByNamespaceName), Spec(
    LabelSelector(map[], [Requirement(Key.LoggingLabel, NotIn, [Disabled])]),
    LabelSelector(map[Key.LoggingLabel := Enabled], []),
    [TenantRelabel(NamespaceTenantLabel)]))

  /** `PodLogs`: by-pod, then by-namespace, both in "giantswarm" and marked as managed by the operator. */
  function PodLogs(): (r: seq<PodLogsObject>)
    ensures |r| == 2 && r[0].meta.name == "by-pod" && r[1].meta.name == "by-namespace"
    ensures forall i :: 0 <= i < |r| ==>
      r[i].meta.namespace == "giantswarm" && r[i].meta.labels == map[ManagedByLabel := "logging-operator"]
    ensures forall i :: 0 <= i < |r| ==>
      |r[i].spec.relabelConfigs| == 1 && r[i].spec.relabelConfigs[0].targetLabel == "tenant_id"
      && r[i].spec.relabelConfigs[0].regex == "(.*)" && r[i].spec.relabelConfigs[0].replacement == "$1"
    ensures forall i :: 0 <= i < |r| ==> r[i].spec.relabelConfigs[0].action == "replace"
    ensures r[0].spec.relabelConfigs[0].sourceLabels == ["__meta_kubernetes_pod_label_giantswarm_io_logging_tenant"]
    ensures r[1].spec.relabelConfigs[0].sourceLabels == ["__meta_kubernetes_namespace_label_namespace_giantswarm_io_logging_tenant"]
    ensures r[0].spec.relabelConfigs[0] == TenantRelabel(PodTenantLabel)
    ensures r[1].spec.relabelConfigs[0] == TenantRelabel(NamespaceTenantLabel)
  {
    [ByPod, ByNamespace]
  }

  /** `by-pod` selects exactly the enabled pods of namespaces that are not enabled. */
  lemma ByPodSelects(pod: Labels, ns: Labels)
    ensures Selects(ByPod, pod, ns) <==>
      (Key.LoggingLabel in pod && pod[Key.LoggingLabel] == Enabled)
      && (Key.LoggingLabel !in ns || ns[Key.LoggingLabel] != Enabled)
  {
    AllHoldMeansEach(ByPod.spec.namespaceSelector.matchExpressions, ns, 0);
    AllHoldMeansEach(ByPod.spec.selector.matchExpressions, pod, 0);
  }

  /** `by-namespace` selects exactly the pods not disabled in enabled namespaces. */
  lemma ByNamespaceSelects(pod: Labels, ns: Labels)
    ensures Selects(ByNamespace, pod, ns) <==>
      (Key.LoggingLabel !in pod || pod[Key.LoggingLabel] != Disabled)
      && (Key.LoggingLabel in ns && ns[Key.LoggingLabel] == Enabled)
  {
    AllHoldMeansEach(ByNamespace.spec.selector.matchExpressions, pod, 0);
    AllHoldMeansEach(ByNamespace.spec.namespaceSelector.matchExpressions, ns, 0);
  }

  /** No pod is scraped twice: the two objects never select the same pod. */
  lemma SelectorsDisjoint(pod: Labels, ns: Labels)
    ensures !(Selects(ByPod, pod, ns) && Selects(ByNamespace, pod, ns))
  {
    ByPodSelects(pod, ns);
    ByNamespaceSelects(pod, ns);
  }

  /** A pod labelled enabled is scraped by exactly one of the objects, wherever it runs. */
  lemma EnabledPodSelectedOnce(pod: Labels, ns: Labels)
    requires Key.LoggingLabel in pod && pod[Key.LoggingLabel] == Enabled
    ensures Selects(ByPod, pod, ns) != Selects(ByNamespace, pod, ns)
  {
    ByPodSelects(pod, ns);
    ByNamespaceSelects(pod, ns);
  }

  /**
   * Together the objects scrape a pod exactly when it is labelled enabled,
   * or its namespace is labelled enabled and the pod is not labelled disabled.
   */
  lemma ScrapedPods(pod: Labels, ns: Labels)
    ensures (Selects(ByPod, pod, ns) || Selects(ByNamespace, pod, ns)) <==>
      (Key.LoggingLabel in pod && pod[Key.LoggingLabel] == Enabled)
      || ((Key.LoggingLabel in ns && ns[Key.LoggingLabel] == Enabled)
          && (Key.LoggingLabel !in pod || pod[Key.LoggingLabel] != Disabled))
  {
    ByPodSelects(pod, ns);
    ByNamespaceSelects(pod, ns);
  }

  /** The zero value of a spec: empty selectors and no relabelling. */
  const EmptySpec := Spec(LabelSelector(map[], []), LabelSelector(map[], []), [])

  /** `GetWithMetaOnly`: the object's metadata with an empty spec. */
  function GetWithMetaOnly(p: PodLogsObject): (r: PodLogsObject)
    ensures r.meta == p.meta && r.spec == EmptySpec
  {
    PodLogsObject(p.meta, EmptySpec)
  }

  /** `GetSpec`: the object's spec. */
  function GetSpec(p: PodLogsObject): (r: Spec)
    ensures PodLogsObject(p.meta, r) == p
  {
    p.spec
  }

  /** Filling the spec of the metadata-only object rebuilds the object it came from. */
  lemma MetaThenSpecRebuilds(p: PodLogsObject)
    ensures GetWithMetaOnly(p).(spec := GetSpec(p)) == p
  {
  }
}
