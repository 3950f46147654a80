/**
 * Constants of pkg/key, whose definitions are not part of this model: they
 * are declared without a value, so every property proved holds for any value
 * they may have.
 */
module Key {
  /** The cluster label that switches logging on or off (`key.LoggingLabel`). */
  const LoggingLabel: string
  /** The finalizer the operator puts on clusters it handles (`key.Finalizer`). */
  const Finalizer: string
}

/**
 * pkg/common: the logging-label test, and the shared constants whose
 * definitions live in files that are not part of this model.
 */
module Common {
  import opened Kube

  /** The label `IsLoggingEnabled` reads; spelled out literally in pkg/common/common.go. */
  const LoggingLabelKey := "giantswarm.io/logging"

  /** Logging is enabled exactly when the logging label is present and is exactly "true". */
  predicate IsLoggingEnabled(labels: Labels)
  {
    LoggingLabelKey in labels && labels[LoggingLabelKey] == "true"
  }

  /** Only the logging label decides: label sets that agree on it agree on the result. */
  lemma OnlyLoggingLabelMatters(a: Labels, b: Labels)
    requires LoggingLabelKey in a <==> LoggingLabelKey in b
    requires LoggingLabelKey in a ==> a[LoggingLabelKey] == b[LoggingLabelKey]
    ensures IsLoggingEnabled(a) == IsLoggingEnabled(b)
  {
  }

  /** The comparison is exact: any other value, "True", "1" and "yes" included, disables logging. */
  lemma OnlyExactTrueEnables(labels: Labels, v: string)
    ensures IsLoggingEnabled(labels[LoggingLabelKey := v]) <==> v == "true"
    ensures LoggingLabelKey !in labels ==> !IsLoggingEnabled(labels)
  {
  }

  // Names of agents and apps.
  const LoggingAgentPromtail: string
  const LoggingAgentAlloy: string
  const EventsLoggerGrafanaAgent: string
  const EventsLoggerAlloy: string
  const PromtailObservabilityBundleAppName: string
  const AlloyObservabilityBundleAppName: string
  const AlloyLogAgentAppName: string
  const AlloyLogAgentAppNamespace: string

  // Tenants and users.
  const ReadUser: string
  const DefaultWriteTenant: string

  // Keys of the environment handed to the alloy and grafana-agent secrets.
  const LoggingURL: string
  const LoggingTenantID: string
  const LoggingUsername: string
  const LoggingPassword: string
  const LokiRulerAPIURL: string
  const TracingUsername: string
  const TracingPassword: string

  /**
   * The seven environment keys are pairwise different; the values they have
   * in the operator ("LOGGING_URL" and so on) are defined outside this model.
   */
  predicate EnvKeysDistinct()
  {
    var keys := [LoggingURL, LoggingTenantID, LoggingUsername, LoggingPassword, LokiRulerAPIURL, TracingUsername, TracingPassword];
    forall i, j :: 0 <= i < j < |keys| ==> keys[i] != keys[j]
  }

  lemma EnvKeysPairwise()
    requires EnvKeysDistinct()
    ensures LoggingURL != LoggingTenantID && LoggingURL != LoggingUsername && LoggingURL != LoggingPassword
    ensures LoggingURL != LokiRulerAPIURL && LoggingURL != TracingUsername && LoggingURL != TracingPassword
    ensures LoggingTenantID != LoggingUsername && LoggingTenantID != LoggingPassword && LoggingTenantID != LokiRulerAPIURL
    ensures LoggingTenantID != TracingUsername && LoggingTenantID != TracingPassword
    ensures LoggingUsername != LoggingPassword && LoggingUsername != LokiRulerAPIURL
    ensures LoggingUsername != TracingUsername && LoggingUsername != TracingPassword
    ensures LoggingPassword != LokiRulerAPIURL && LoggingPassword != TracingUsername && LoggingPassword != TracingPassword
    ensures LokiRulerAPIURL != TracingUsername && LokiRulerAPIURL != TracingPassword
    ensures TracingUsername != TracingPassword
  {
    var keys := [LoggingURL, LoggingTenantID, LoggingUsername, LoggingPassword, LokiRulerAPIURL, TracingUsername, TracingPassword];
    assert keys[0] == LoggingURL && keys[1] == LoggingTenantID && keys[2] == LoggingUsername && keys[3] == LoggingPassword;
    assert keys[4] == LokiRulerAPIURL && keys[5] == TracingUsername && keys[6] == TracingPassword;
  }

  /** The five logging keys make a set of five. */
  lemma FiveKeys()
    requires EnvKeysDistinct()
    ensures |{LoggingURL, LoggingTenantID, LoggingUsername, LoggingPassword, LokiRulerAPIURL}| == 5
  {
    EnvKeysPairwise();
    var s2 := {LoggingURL, LoggingTenantID};
    var s3 := s2 + {LoggingUsername};
    var s4 := s3 + {LoggingPassword};
    assert |s2| == 2 && |s3| == 3 && |s4| == 4;
    assert {LoggingURL, LoggingTenantID, LoggingUsername, LoggingPassword, LokiRulerAPIURL} == s4 + {LokiRulerAPIURL};
  }

  /** With the two tracing keys, seven. */
  lemma SevenKeys()
    requires EnvKeysDistinct()
    ensures |{LoggingURL, LoggingTenantID, LoggingUsername, LoggingPassword, LokiRulerAPIURL} + {TracingUsername, TracingPassword}| == 7
  {
    FiveKeys();
    EnvKeysPairwise();
    var s5 := {LoggingURL, LoggingTenantID, LoggingUsername, LoggingPassword, LokiRulerAPIURL};
    assert |s5 + {TracingUsername}| == 6;
    assert s5 + {TracingUsername, TracingPassword} == (s5 + {TracingUsername}) + {TracingPassword};
  }

  /** Suffix of the grafana-agent extra secret (`GrafanaAgentExtraSecretName()`). */
  const GrafanaAgentExtraSecretName: string

  /** Promtail client settings. */
  const LokiRemoteTimeout: string
  const LokiMaxBackoffPeriod: string

  /** `fmt.Sprintf("https://%s/loki/api/v1/push", host)`, spelled out in several builders. */
  function HttpsPushURL(host: string): string
  {
    "https://" + host + "/loki/api/v1/push"
  }

  /** `fmt.Sprintf(LokiPushURLFormat, host)` and `fmt.Sprintf(LokiBaseURLFormat, host)`. */
  const LokiPushURL: string -> string
  const LokiBaseURL: string -> string
}

/** pkg/resource/cluster-helpers: the same label test on a Cluster API cluster. */
module ClusterHelpers {
  import opened Kube
  import Key

  /** A Cluster API cluster, reduced to its metadata and deletion state. */
  datatype Cluster = Cluster(meta: ObjectMeta, deleting: bool)

  predicate IsLoggingEnabled(cluster: Cluster)
  {
    Key.LoggingLabel in cluster.meta.labels && cluster.meta.labels[Key.LoggingLabel] == "true"
  }

  /** Only the cluster's logging label decides, and only the exact value "true" enables. */
  lemma LoggingLabelDecides(cluster: Cluster, v: string, other: Cluster)
    requires other.meta.labels == cluster.meta.labels
    ensures IsLoggingEnabled(cluster) == IsLoggingEnabled(other)
    ensures IsLoggingEnabled(cluster.(meta := cluster.meta.(labels := cluster.meta.labels[Key.LoggingLabel := v]))) <==> v == "true"
    ensures Key.LoggingLabel !in cluster.meta.labels ==> !IsLoggingEnabled(cluster)
  {
  }
}
