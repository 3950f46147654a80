/**
 * pkg/resource/logging-secret: the per-cluster logging secret, whose values
 * come from the alloy secret template over an environment map, and the
 * promtail flavour of the same values.
 */
module LoggingSecret {
  import opened Kube
  import Common
  import Credentials
  import Clusters
  import ClusterHelpers

  const SecretName := "logging-secret"

  /** The alloy secret template rendered over an environment map; its body is not part of this model. */
  const RenderAlloySecret: map<string, string> -> Result<string>

  /** `SecretMeta`: "<cluster>-logging-secret" in the cluster's namespace, with the common labels. */
  function SecretMeta(cluster: ClusterHelpers.Cluster): (m: ObjectMeta)
    ensures m.name == cluster.meta.name + "-" + SecretName
    ensures m.namespace == cluster.meta.namespace
    ensures m.labels == CommonLabels
  {
    ObjectMeta(cluster.meta.name + "-" + SecretName, cluster.meta.namespace, AddCommonLabels(map[]))
  }

  /**
   * The environment handed to the alloy secret template: the five logging
   * entries, and the two tracing entries when a tracing password is given.
   */
  function AlloyEnv(clusterName: string, lokiURL: string, writePassword: string, tracingPassword: Option<string>): (env: map<string, string>)
    ensures env.Keys == {Common.LoggingURL, Common.LoggingTenantID, Common.LoggingUsername, Common.LoggingPassword, Common.LokiRulerAPIURL}
                        + (if tracingPassword.Some? then {Common.TracingUsername, Common.TracingPassword} else {})
  {
    var base := map[Common.LoggingURL := Common.LokiPushURL(lokiURL),
                     Common.LoggingTenantID := Common.DefaultWriteTenant,
                     Common.LoggingUsername := clusterName,
                     Common.LoggingPassword := writePassword,
                     Common.LokiRulerAPIURL := Common.LokiBaseURL(lokiURL)];
    match tracingPassword
    case None => base
    case Some(p) => base[Common.TracingUsername := clusterName][Common.TracingPassword := p]
  }

  /**
   * With the keys distinct, the environment has exactly five entries (seven
   * with tracing): the push URL, the default write tenant, the cluster as
   * user with its write password, the ruler URL, and for tracing the cluster
   * again with the tracing password.
   */
  lemma AlloyEnvContents(clusterName: string, lokiURL: string, writePassword: string, tracingPassword: Option<string>)
    requires Common.EnvKeysDistinct()
    ensures var env := AlloyEnv(clusterName, lokiURL, writePassword, tracingPassword);
      |env| == (if tracingPassword.Some? then 7 else 5)
      && env[Common.LoggingURL] == Common.LokiPushURL(lokiURL)
      && env[Common.LoggingTenantID] == Common.DefaultWriteTenant
      && env[Common.LoggingUsername] == clusterName
      && env[Common.LoggingPassword] == writePassword
      && env[Common.LokiRulerAPIURL] == Common.LokiBaseURL(lokiURL)
    ensures tracingPassword.Some? ==>
              var env := AlloyEnv(clusterName, lokiURL, writePassword, tracingPassword);
              env[Common.TracingUsername] == clusterName && env[Common.TracingPassword] == tracingPassword.value
  {
    Common.EnvKeysPairwise();
    var env := AlloyEnv(clusterName, lokiURL, writePassword, tracingPassword);
    Common.FiveKeys();
    if tracingPassword.Some? {
      Common.SevenKeys();
    }
    assert |env| == |env.Keys|;
  }

  /** Turning tracing on only adds entries: every logging entry keeps its value unless a tracing key coincides with it. */
  lemma TracingOnlyAdds(clusterName: string, lokiURL: string, writePassword: string, p: string)
    ensures var off, on := AlloyEnv(clusterName, lokiURL, writePassword, None), AlloyEnv(clusterName, lokiURL, writePassword, Some(p));
      forall k :: k in off ==> k in on && (k != Common.TracingUsername && k != Common.TracingPassword ==> on[k] == off[k])
  {
  }

  /**
   * The secret data `GenerateAlloyLoggingSecret` yields, given what the logs
   * and traces auth managers answer for the cluster.
   */
  function AlloyLoggingData(clusterName: string, logsPassword: Result<string>, tracesPassword: Result<string>,
                            lokiURL: string, tracingEnabled: bool): (r: Result<map<string, string>>)
    ensures r.Ok? ==> r.value.Keys == {"values"}
    ensures logsPassword.Err? ==> r == Err(logsPassword.error)
    ensures logsPassword.Ok? && tracingEnabled && tracesPassword.Err? ==> r == Err(tracesPassword.error)
    ensures r.Ok? <==> logsPassword.Ok? && (tracingEnabled ==> tracesPassword.Ok?)
                       && RenderAlloySecret(AlloyEnv(clusterName, lokiURL, logsPassword.value,
                                                     if tracingEnabled then Some(tracesPassword.value) else None)).Ok?
  {
    if logsPassword.Err? then Err(logsPassword.error)
    else if tracingEnabled && tracesPassword.Err? then Err(tracesPassword.error)
    else
      var env := AlloyEnv(clusterName, lokiURL, logsPassword.value, if tracingEnabled then Some(tracesPassword.value) else None);
      match RenderAlloySecret(env)
      case Err(e) => Err(e)
      case Ok(values) => Ok(map["values" := values])
  }

  /** The traces auth manager is never consulted when tracing is disabled. */
  lemma TracesIgnoredWhenDisabled(clusterName: string, logsPassword: Result<string>, t1: Result<string>, t2: Result<string>, lokiURL: string)
    ensures AlloyLoggingData(clusterName, logsPassword, t1, lokiURL, false) == AlloyLoggingData(clusterName, logsPassword, t2, lokiURL, false)
  {
  }

  /**
   * `GenerateAlloyLoggingSecret`: build the five-entry environment, extend it
   * in place with the tracing entries when tracing is enabled, render it.
   */
  method GenerateAlloyLoggingSecret(cluster: ClusterHelpers.Cluster, logsPassword: Result<string>, tracesPassword: Result<string>,
                                    lokiURL: string, tracingEnabled: bool) returns (r: Result<map<string, string>>)
    ensures r == AlloyLoggingData(cluster.meta.name, logsPassword, tracesPassword, lokiURL, tracingEnabled)
  {
    var clusterName := cluster.meta.name;
    if logsPassword.Err? {
      return Err(logsPassword.error);
    }
    var writePassword := logsPassword.value;
    var env := map[Common.LoggingURL := Common.LokiPushURL(lokiURL),
                    Common.LoggingTenantID := Common.DefaultWriteTenant,
                    Common.LoggingUsername := clusterName,
                    Common.LoggingPassword := writePassword,
                    Common.LokiRulerAPIURL := Common.LokiBaseURL(lokiURL)];
    if tracingEnabled {
      if tracesPassword.Err? {
        return Err(tracesPassword.error);
      }
      env := env[Common.TracingUsername := clusterName];
      env := env[Common.TracingPassword := tracesPassword.value];
    }
    assert env == AlloyEnv(clusterName, lokiURL, writePassword, if tracingEnabled then Some(tracesPassword.value) else None);
    var values := RenderAlloySecret(env);
    if values.Err? {
      return Err(values.error);
    }
    r := Ok(map["values" := values.value]);
  }

  /** `GenerateLoggingSecret`: the alloy data in a secret with `SecretMeta`, or the generator's error. */
  function GenerateLoggingSecret(cluster: ClusterHelpers.Cluster, logsPassword: Result<string>, tracesPassword: Result<string>,
                                 lokiURL: string, tracingEnabled: bool): (r: Result<Secret>)
    ensures var d := AlloyLoggingData(cluster.meta.name, logsPassword, tracesPassword, lokiURL, tracingEnabled);
      (d.Err? ==> r == Err(d.error)) && (d.Ok? ==> r == Ok(Secret(SecretMeta(cluster), d.value)))
  {
    var d := AlloyLoggingData(cluster.meta.name, logsPassword, tracesPassword, lokiURL, tracingEnabled);
    if d.Err? then Err(d.error) else Ok(Secret(SecretMeta(cluster), d.value))
  }

  /** One promtail client entry of the logging-secret values. */
  datatype PromtailClient = PromtailClient(
    url: string, tenantID: string, username: string, password: string, maxPeriod: string,
    installation: string, clusterID: string, insecureSkipVerify: bool, timeout: string)

  datatype PromtailValues = PromtailValues(clients: seq<PromtailClient>)

  /** YAML encoding of the promtail values; a foreign library. */
  const MarshalPromtailValues: PromtailValues -> Result<string>

  /** The values `GeneratePromtailLoggingSecret` encodes for a write password. */
  function PromtailLoggingValues(lc: Clusters.LoggedCluster, writePassword: string, lokiURL: string,
                                 installationName: string, insecureCA: bool): (v: PromtailValues)
    ensures |v.clients| == 1
    ensures var c := v.clients[0];
      c.url == Common.LokiPushURL(lokiURL) && c.tenantID == Common.DefaultWriteTenant
      && c.username == lc.meta.name && c.password == writePassword
      && c.installation == installationName && c.clusterID == lc.meta.name
      && c.insecureSkipVerify == insecureCA
      && c.timeout == Common.LokiRemoteTimeout && c.maxPeriod == Common.LokiMaxBackoffPeriod
  {
    PromtailValues([PromtailClient(Common.LokiPushURL(lokiURL), Common.DefaultWriteTenant, lc.meta.name, writePassword,
                                   Common.LokiMaxBackoffPeriod, installationName, lc.meta.name, insecureCA, Common.LokiRemoteTimeout)])
  }

  /** `GeneratePromtailLoggingSecret`: a missing or unreadable password is an error, else the encoded values. */
  function GeneratePromtailLoggingSecret(lc: Clusters.LoggedCluster, credentials: map<string, string>, lokiURL: string,
                                         installationName: string, insecureCA: bool): (r: Result<map<string, string>>)
    ensures r.Ok? ==> r.value.Keys == {"values"}
    ensures var pw := Credentials.GetPassword(credentials, lc.meta.name);
      (pw.Err? ==> r == Err(pw.error))
      && (pw.Ok? ==> (var m := MarshalPromtailValues(PromtailLoggingValues(lc, pw.value, lokiURL, installationName, insecureCA));
                      r == if m.Ok? then Ok(map["values" := m.value]) else Err(m.error)))
  {
    match Credentials.GetPassword(credentials, lc.meta.name)
    case Err(e) => Err(e)
    case Ok(pw) =>
      match MarshalPromtailValues(PromtailLoggingValues(lc, pw, lokiURL, installationName, insecureCA))
      case Err(e) => Err(e)
      case Ok(v) => Ok(map["values" := v])
  }

  /** The client of a generated secret logs in as a user of the credentials table, with that user's stored password. */
  lemma PromtailClientUsesStoredCredentials(lc: Clusters.LoggedCluster, credentials: map<string, string>, lokiURL: string,
                                           installationName: string, insecureCA: bool)
    requires GeneratePromtailLoggingSecret(lc, credentials, lokiURL, installationName, insecureCA).Ok?
    ensures var pw := Credentials.GetPassword(credentials, lc.meta.name);
      pw.Ok? && (var c := PromtailLoggingValues(lc, pw.value, lokiURL, installationName, insecureCA).clients[0];
                 Credentials.GetPassword(credentials, c.username) == Ok(c.password))
  {
  }
}

/** pkg/resource/events-logger-secret: the events logger's secret of a Cluster API cluster. */
module EventsLoggerSecret {
  import opened Kube
  import Common
  import Strings
  import Credentials
  import ClusterHelpers
  import LoggingSecret

  const EventsLoggerSecretName := "events-logger-secret"
  const GrafanaAgentSecretName := "grafana-agent-secret"

  /** `GetEventsLoggerSecretName`: the grafana-agent name for grafana-agent, the events-logger name otherwise. */
  function SecretName(cluster: ClusterHelpers.Cluster, logger: string): (name: string)
    ensures logger == Common.EventsLoggerGrafanaAgent ==> name == cluster.meta.name + "-" + GrafanaAgentSecretName
    ensures logger != Common.EventsLoggerGrafanaAgent ==> name == cluster.meta.name + "-" + EventsLoggerSecretName
  {
    if logger == Common.EventsLoggerGrafanaAgent then cluster.meta.name + "-" + GrafanaAgentSecretName
    else cluster.meta.name + "-" + EventsLoggerSecretName
  }

  /** The two loggers of one cluster write differently named secrets. */
  lemma SecretNameSeparatesLoggers(cluster: ClusterHelpers.Cluster, logger: string)
    requires logger != Common.EventsLoggerGrafanaAgent
    ensures SecretName(cluster, logger) != SecretName(cluster, Common.EventsLoggerGrafanaAgent)
  {
    var n := |cluster.meta.name| + 1;
    assert SecretName(cluster, logger)[n] == 'e';
    assert SecretName(cluster, Common.EventsLoggerGrafanaAgent)[n] == 'g';
  }

  function SecretMeta(cluster: ClusterHelpers.Cluster, logger: string): (m: ObjectMeta)
    ensures m.name == SecretName(cluster, logger)
    ensures m.namespace == cluster.meta.namespace
    ensures m.labels == CommonLabels
  {
    ObjectMeta(SecretName(cluster, logger), cluster.meta.namespace, AddCommonLabels(map[]))
  }

  /** The `extraSecret` values of the grafana-agent secret. */
  datatype ExtraSecret = ExtraSecret(name: string, data: map<string, string>)

  /** YAML encoding of the extra-secret values; a foreign library. */
  const MarshalExtraSecret: ExtraSecret -> Result<string>

  /** The extra secret: named after the cluster, holding the four logging entries. */
  function GrafanaAgentValues(clusterName: string, lokiURL: string, writePassword: string): (v: ExtraSecret)
    ensures v.name == clusterName + "-" + Common.GrafanaAgentExtraSecretName
    ensures v.data.Keys == {Common.LoggingURL, Common.LoggingTenantID, Common.LoggingUsername, Common.LoggingPassword}
  {
    ExtraSecret(clusterName + "-" + Common.GrafanaAgentExtraSecretName,
                map[Common.LoggingURL := Common.LokiPushURL(lokiURL),
                    Common.LoggingTenantID := Common.DefaultWriteTenant,
                    Common.LoggingUsername := clusterName,
                    Common.LoggingPassword := writePassword])
  }

  /** With distinct keys: exactly four entries, the default write tenant, and the cluster as user with its password. */
  lemma GrafanaAgentValuesContents(clusterName: string, lokiURL: string, writePassword: string)
    requires Common.EnvKeysDistinct()
    ensures var d := GrafanaAgentValues(clusterName, lokiURL, writePassword).data;
      |d| == 4 && d[Common.LoggingURL] == Common.LokiPushURL(lokiURL)
      && d[Common.LoggingTenantID] == Common.DefaultWriteTenant
      && d[Common.LoggingUsername] == clusterName && d[Common.LoggingPassword] == writePassword
  {
    Common.EnvKeysPairwise();
    var d := GrafanaAgentValues(clusterName, lokiURL, writePassword).data;
    assert |{Common.LoggingURL, Common.LoggingTenantID}| == 2;
    assert |{Common.LoggingURL, Common.LoggingTenantID, Common.LoggingUsername}| == 3;
    assert |d| == |d.Keys|;
  }

  /** `generateGrafanaAgentSecret`: the cluster's password from the logging credentials, then the encoded values. */
  function GrafanaAgentData(cluster: ClusterHelpers.Cluster, credentials: map<string, string>, lokiURL: string): (r: Result<map<string, string>>)
    ensures r.Ok? ==> r.value.Keys == {"values"}
    ensures var pw := Credentials.GetPassword(credentials, cluster.meta.name);
      (pw.Err? ==> r == Err(pw.error))
      && (pw.Ok? ==> (var m := MarshalExtraSecret(GrafanaAgentValues(cluster.meta.name, lokiURL, pw.value));
                      r == if m.Ok? then Ok(map["values" := m.value]) else Err(m.error)))
  {
    match Credentials.GetPassword(credentials, cluster.meta.name)
    case Err(e) => Err(e)
    case Ok(pw) =>
      match MarshalExtraSecret(GrafanaAgentValues(cluster.meta.name, lokiURL, pw))
      case Err(e) => Err(e)
      case Ok(v) => Ok(map["values" := v])
  }

  /**
   * `generateEventsLoggerSecret`: grafana-agent gets its extra secret, alloy
   * reuses the logging secret's data (passwords from the two credential
   * tables), any other logger is refused.
   */
  function Generate(cluster: ClusterHelpers.Cluster, logger: string, loggingCredentials: map<string, string>, lokiURL: string,
                    tracingEnabled: bool, tracingCredentials: map<string, string>): (r: Result<Secret>)
    ensures r.Ok? ==> r.value.meta == SecretMeta(cluster, logger)
    ensures logger != Common.EventsLoggerGrafanaAgent && logger != Common.EventsLoggerAlloy ==>
              r == Err(Failure("unsupported logging agent " + Strings.Quoted(logger)))
    ensures logger == Common.EventsLoggerGrafanaAgent ==>
              (var d := GrafanaAgentData(cluster, loggingCredentials, lokiURL);
               (d.Err? ==> r == Err(d.error)) && (d.Ok? ==> r.Ok? && r.value.data == d.value))
    ensures logger != Common.EventsLoggerGrafanaAgent && logger == Common.EventsLoggerAlloy ==>
              (var d := LoggingSecret.AlloyLoggingData(cluster.meta.name, Credentials.GetPassword(loggingCredentials, cluster.meta.name),
                                                       Credentials.GetPassword(tracingCredentials, cluster.meta.name), lokiURL, tracingEnabled);
               (d.Err? ==> r == Err(d.error)) && (d.Ok? ==> r.Ok? && r.value.data == d.value))
  {
    var data: Option<Result<map<string, string>>> :=
      if logger == Common.EventsLoggerGrafanaAgent then Some(GrafanaAgentData(cluster, loggingCredentials, lokiURL))
      else if logger == Common.EventsLoggerAlloy then
        Some(LoggingSecret.AlloyLoggingData(cluster.meta.name, Credentials.GetPassword(loggingCredentials, cluster.meta.name),
                                            Credentials.GetPassword(tracingCredentials, cluster.meta.name), lokiURL, tracingEnabled))
      else None;
    match data
    case None => Err(Failure("unsupported logging agent " + Strings.Quoted(logger)))
    case Some(Err(e)) => Err(e)
    case Some(Ok(d)) => Ok(Secret(SecretMeta(cluster, logger), d))
  }
}

/** pkg/resource/tracing-secret: the tracing credentials secret of a Cluster API cluster. */
module TracingSecret {
  import opened Kube
  import Common
  import Passwords
  import ClusterHelpers
  import EventsLoggerSecret

  const TracingSecretName := "events-logger-secret"

  /** The tracing secret template rendered over an environment map; its body is not part of this model. */
  const RenderTracingSecret: map<string, string> -> Result<string>

  /** `GetTracingSecretName`. */
  function SecretName(cluster: ClusterHelpers.Cluster): (name: string)
    ensures name == cluster.meta.name + "-" + TracingSecretName
  {
    cluster.meta.name + "-" + TracingSecretName
  }

  function SecretMeta(cluster: ClusterHelpers.Cluster): (m: ObjectMeta)
    ensures m.name == SecretName(cluster) && m.namespace == cluster.meta.namespace
    ensures m.labels == CommonLabels
  {
    ObjectMeta(SecretName(cluster), cluster.meta.namespace, AddCommonLabels(map[]))
  }

  /**
   * The tracing secret has the same name and namespace as the events-logger
   * secret of any logger but grafana-agent: both resources manage one object.
   */
  lemma SharesEventsLoggerSecret(cluster: ClusterHelpers.Cluster, logger: string)
    requires logger != Common.EventsLoggerGrafanaAgent
    ensures KeyOf(SecretMeta(cluster)) == KeyOf(EventsLoggerSecret.SecretMeta(cluster, logger))
  {
  }

  /** The template environment: exactly the tracing user (the cluster) and its password. */
  function TracingEnv(clusterName: string, password: string): (env: map<string, string>)
    ensures env.Keys == {Common.TracingUsername, Common.TracingPassword}
    ensures Common.TracingUsername != Common.TracingPassword ==>
              env[Common.TracingUsername] == clusterName && env[Common.TracingPassword] == password
  {
    map[Common.TracingUsername := clusterName, Common.TracingPassword := password]
  }

  /**
   * `generateTracingSecret`: a fresh password (the same generator as the
   * credential tables, `draw` standing for the random source), rendered with
   * the template into the single key "values".
   */
  function Generate(cluster: ClusterHelpers.Cluster, draw: nat -> Result<Passwords.Draw>): (r: Result<Secret>)
    ensures var pw := Passwords.Drawn(draw, Passwords.Length());
      (pw.Err? ==> r == Err(pw.error))
      && (pw.Ok? ==> (var v := RenderTracingSecret(TracingEnv(cluster.meta.name, pw.value));
                      r == if v.Ok? then Ok(Secret(SecretMeta(cluster), map["values" := v.value])) else Err(v.error)))
  {
    match Passwords.Drawn(draw, Passwords.Length())
    case Err(e) => Err(e)
    case Ok(password) =>
      match RenderTracingSecret(TracingEnv(cluster.meta.name, password))
      case Err(e) => Err(e)
      case Ok(values) => Ok(Secret(SecretMeta(cluster), map["values" := values]))
  }
}

/** pkg/resource/alloy-secret: where the alloy logging secret lives. */
module AlloySecret {
  import opened Kube
  import Common
  import Clusters

  const SecretName := "alloy-logging-secret"

  /** `SecretMeta`: "<cluster>-alloy-logging-secret" in the alloy app's namespace, whatever the cluster's own namespace. */
  function SecretMeta(lc: Clusters.LoggedCluster): (m: ObjectMeta)
    ensures m.name == Clusters.ClusterName(lc) + "-" + SecretName
    ensures m.namespace == Common.AlloyLogAgentAppNamespace
    ensures m.labels == CommonLabels
  {
    ObjectMeta(Clusters.ClusterName(lc) + "-" + SecretName, Common.AlloyLogAgentAppNamespace, AddCommonLabels(map[]))
  }

  /** The metadata depends on the cluster name only. */
  lemma OnlyClusterNameMatters(a: Clusters.LoggedCluster, b: Clusters.LoggedCluster)
    requires Clusters.ClusterName(a) == Clusters.ClusterName(b)
    ensures SecretMeta(a) == SecretMeta(b)
  {
  }
}
