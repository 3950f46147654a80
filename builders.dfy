/**
 * pkg/resource/promtail-client: the promtail client secret of a cluster and
 * the reader that pulls connection details back out of such a secret.
 */
module PromtailClient {
  import opened Kube
  import Clusters
  import Common
  import Credentials
  import Strings

  const SecretName := "logging-secret"

  datatype BasicAuth = BasicAuth(username: string, password: string)
  datatype ExternalLabels = ExternalLabels(installation: string, clusterID: string)
  datatype ClientConfig = ClientConfig(url: string, tenantID: string, basicAuth: BasicAuth, maxPeriod: string,
                                       externalLabels: ExternalLabels)

  /** The `promtail` section: its `config.clients` list. */
  datatype Promtail = Promtail(clients: seq<ClientConfig>)

  /** The values document written into the secret: the `promtail` section under its own key. */
  datatype Values = Values(promtail: Promtail)

  /** YAML encoding of the values and YAML decoding of a bare `promtail` section; foreign libraries. */
  const MarshalValues: Values -> Result<string>
  const UnmarshalPromtail: string -> Result<Promtail>

  /** `SecretMeta`: "<cluster>-logging-secret" in the cluster's apps namespace, with the common labels. */
  function SecretMeta(lc: Clusters.LoggedCluster): (m: ObjectMeta)
    ensures m.name == Clusters.ClusterName(lc) + "-" + SecretName
    ensures m.namespace == Clusters.AppsNamespace(lc) && m.labels == AddCommonLabels(map[])
  {
    ObjectMeta(Clusters.ClusterName(lc) + "-" + SecretName, Clusters.AppsNamespace(lc), AddCommonLabels(map[]))
  }

  /** Two clusters with different names never share a client secret. */
  lemma SecretMetaSeparatesClusters(a: Clusters.LoggedCluster, b: Clusters.LoggedCluster)
    requires Clusters.ClusterName(a) != Clusters.ClusterName(b)
    ensures KeyOf(SecretMeta(a)) != KeyOf(SecretMeta(b))
  {
    Strings.SuffixKeepsDistinct(Clusters.ClusterName(a), Clusters.ClusterName(b), "-", SecretName);
  }

  /**
   * The values written for a write password: one client pushing to the
   * cluster's Loki over https, as tenant and user named after the cluster,
   * backing off at most ten minutes, labelled with installation and cluster.
   */
  function ClientValues(lc: Clusters.LoggedCluster, writePassword: string, lokiURL: string): (v: Values)
    ensures |v.promtail.clients| == 1
    ensures var c := v.promtail.clients[0];
      c.url == Common.HttpsPushURL(lokiURL)
      && c.tenantID == Clusters.ClusterName(lc) && c.basicAuth.username == Clusters.ClusterName(lc)
      && c.basicAuth.password == writePassword && c.maxPeriod == "10m"
      && c.externalLabels == ExternalLabels(Clusters.InstallationName(lc), Clusters.ClusterName(lc))
  {
    var clusterName := Clusters.ClusterName(lc);
    Values(Promtail([ClientConfig(Common.HttpsPushURL(lokiURL), clusterName, BasicAuth(clusterName, writePassword), "10m",
                                  ExternalLabels(Clusters.InstallationName(lc), clusterName))]))
  }

  /**
   * `GeneratePromtailClientSecret`: the cluster's password is looked up in the
   * credentials table; a lookup or encoding error is returned instead of a
   * secret, otherwise the encoded values sit under the single key "values".
   */
  function GeneratePromtailClientSecret(lc: Clusters.LoggedCluster, credentials: map<string, string>, lokiURL: string): (r: Result<Secret>)
    ensures r.Ok? ==> r.value.meta == SecretMeta(lc) && r.value.data.Keys == {"values"}
    ensures var pw := Credentials.GetPassword(credentials, Clusters.ClusterName(lc));
      (pw.Err? ==> r == Err(pw.error))
      && (pw.Ok? ==> (var m := MarshalValues(ClientValues(lc, pw.value, lokiURL));
                      r == if m.Ok? then Ok(Secret(SecretMeta(lc), map["values" := m.value])) else Err(m.error)))
  {
    match Credentials.GetPassword(credentials, Clusters.ClusterName(lc))
    case Err(e) => Err(e)
    case Ok(pw) =>
      match MarshalValues(ClientValues(lc, pw, lokiURL))
      case Err(e) => Err(e)
      case Ok(v) => Ok(Secret(SecretMeta(lc), map["values" := v]))
  }

  /** A generated secret's client logs in as a user of the credentials table, with that user's stored password. */
  lemma ClientUsesStoredCredentials(lc: Clusters.LoggedCluster, credentials: map<string, string>, lokiURL: string)
    requires GeneratePromtailClientSecret(lc, credentials, lokiURL).Ok?
    ensures var pw := Credentials.GetPassword(credentials, Clusters.ClusterName(lc));
      pw.Ok? && (var c := ClientValues(lc, pw.value, lokiURL).promtail.clients[0];
                 Credentials.GetPassword(credentials, c.basicAuth.username) == Ok(c.basicAuth.password))
  {
  }

  /** The connection details `GetPromtailCredentials` reports for a client: everything but the password. */
  function CredentialsOf(c: ClientConfig): (m: map<string, string>)
    ensures m.Keys == {"url", "tenantID", "username", "installation", "clusterID"}
    ensures m["url"] == c.url && m["tenantID"] == c.tenantID && m["username"] == c.basicAuth.username
    ensures m["installation"] == c.externalLabels.installation && m["clusterID"] == c.externalLabels.clusterID
  {
    map["url" := c.url, "tenantID" := c.tenantID, "username" := c.basicAuth.username,
        "installation" := c.externalLabels.installation, "clusterID" := c.externalLabels.clusterID]
  }

  /**
   * `GetPromtailCredentials`: a secret without "values" and text that does
   * not decode are errors; otherwise the first client's details are copied
   * into a fresh map one key at a time. The caller must hand in a secret whose
   * decoded section lists at least one client.
   */
  method GetPromtailCredentials(data: map<string, string>) returns (r: Result<map<string, string>>)
    requires "values" in data && UnmarshalPromtail(data["values"]).Ok? ==> |UnmarshalPromtail(data["values"]).value.clients| > 0
    ensures "values" !in data ==> r == Err(Failure("Promtail secret content not found"))
    ensures "values" in data && UnmarshalPromtail(data["values"]).Err? ==> r == Err(Failure("Invalid promtail secret content"))
    ensures "values" in data && UnmarshalPromtail(data["values"]).Ok? ==>
      r == Ok(CredentialsOf(UnmarshalPromtail(data["values"]).value.clients[0]))
  {
    if "values" !in data {
      return Err(Failure("Promtail secret content not found"));
    }
    var decoded := UnmarshalPromtail(data["values"]);
    if decoded.Err? {
      return Err(Failure("Invalid promtail secret content"));
    }
    var c := decoded.value.clients[0];
    var credentials: map<string, string> := map[];
    credentials := credentials["url" := c.url];
    credentials := credentials["tenantID" := c.tenantID];
    credentials := credentials["username" := c.basicAuth.username];
    credentials := credentials["installation" := c.externalLabels.installation];
    credentials := credentials["clusterID" := c.externalLabels.clusterID];
    return Ok(credentials);
  }

  /**
   * Read off the client `GeneratePromtailClientSecret` builds, the details are
   * the push URL, the cluster as tenant and user, the installation and the
   * cluster id. Whether the reader can decode the generator's text is a
   * property of the YAML library and is not claimed: the generator writes the
   * `promtail` section under a key of its own, the reader expects it bare.
   */
  lemma GeneratedClientDetails(lc: Clusters.LoggedCluster, writePassword: string, lokiURL: string)
    ensures var name := Clusters.ClusterName(lc);
      CredentialsOf(ClientValues(lc, writePassword, lokiURL).promtail.clients[0])
        == map["url" := Common.HttpsPushURL(lokiURL), "tenantID" := name, "username" := name,
               "installation" := Clusters.InstallationName(lc), "clusterID" := name]
  {
  }
}

/** pkg/resource/promtail-config: the extra values of the promtail app. */
module PromtailConfig {
  import opened Kube
  import Clusters
  import Strings

  const ConfigName := "logging-config"

  datatype EnvVar = EnvVar(name: string, fieldPath: string)
  datatype RelabelConfig = RelabelConfig(sourceLabels: seq<string>, action: string, regex: string)
  datatype Snippets = Snippets(extraScrapeConfigs: string, extraRelabelConfigs: seq<RelabelConfig>, addScrapeJobLabel: bool)
  datatype Volume = Volume(name: string, hostPath: string)
  datatype VolumeMount = VolumeMount(name: string, mountPath: string, readOnly: bool)
  datatype Values = Values(extraArgs: seq<string>, extraEnv: seq<EnvVar>, snippets: Snippets,
                           extraVolumes: seq<Volume>, extraVolumeMounts: seq<VolumeMount>)

  /** The fixed scrape jobs for the systemd journal and the API server audit log. */
  const SystemScrapeConfigs: string

  /** YAML encoding of the values; a foreign library. */
  const MarshalValues: Values -> Result<string>

  /** Keep only the kube-system and giantswarm namespaces. */
  const NamespaceFilter := RelabelConfig(["__meta_kubernetes_namespace"], "keep", "kube-system|giantswarm")

  /** `ConfigMeta`: "<cluster>-logging-config" in the cluster's apps namespace, with the common labels. */
  function ConfigMeta(lc: Clusters.LoggedCluster): (m: ObjectMeta)
    ensures m.name == Clusters.ClusterName(lc) + "-" + ConfigName
    ensures m.namespace == Clusters.AppsNamespace(lc) && m.labels == AddCommonLabels(map[])
  {
    ObjectMeta(Clusters.ClusterName(lc) + "-" + ConfigName, Clusters.AppsNamespace(lc), AddCommonLabels(map[]))
  }

  /** Two clusters with different names never share a promtail config map. */
  lemma ConfigMetaSeparatesClusters(a: Clusters.LoggedCluster, b: Clusters.LoggedCluster)
    requires Clusters.ClusterName(a) != Clusters.ClusterName(b)
    ensures KeyOf(ConfigMeta(a)) != KeyOf(ConfigMeta(b))
  {
    Strings.SuffixKeepsDistinct(Clusters.ClusterName(a), Clusters.ClusterName(b), "-", ConfigName);
  }

  /** The three host directories promtail reads, each mounted read-only at its own path. */
  const HostVolumes := [Volume("journal-run", "/run/log/journal/"), Volume("journal-var", "/var/log/journal/"),
                        Volume("apiserver-logs", "/var/log/apiserver/")]
  const HostMounts := [VolumeMount("journal-run", "/run/log/journal/", true), VolumeMount("journal-var", "/var/log/journal/", true),
                       VolumeMount("apiserver-logs", "/var/log/apiserver/", true)]

  /**
   * The values `GeneratePromtailConfig` encodes: a workload cluster's logs are
   * narrowed to two namespaces, a management cluster's are not narrowed.
   */
  function PromtailValues(lc: Clusters.LoggedCluster): (v: Values)
    ensures Clusters.IsWorkloadCluster(lc) ==> v.snippets.extraRelabelConfigs == [NamespaceFilter]
    ensures !Clusters.IsWorkloadCluster(lc) ==> v.snippets.extraRelabelConfigs == []
    ensures v.extraArgs == ["-log-config-reverse-order", "-config.expand-env=true"]
    ensures v.extraEnv == [EnvVar("NODENAME", "spec.nodeName")]
    ensures v.snippets.extraScrapeConfigs == SystemScrapeConfigs && v.snippets.addScrapeJobLabel
    ensures v.extraVolumes == HostVolumes && v.extraVolumeMounts == HostMounts
  {
    var relabel := if Clusters.IsWorkloadCluster(lc) then [NamespaceFilter] else [];
    Values(["-log-config-reverse-order", "-config.expand-env=true"], [EnvVar("NODENAME", "spec.nodeName")],
           Snippets(SystemScrapeConfigs, relabel, true), HostVolumes, HostMounts)
  }

  /** Every extra volume has exactly one mount, of the same name, read-only at the volume's host path. */
  lemma MountsMatchVolumes(lc: Clusters.LoggedCluster)
    ensures var v := PromtailValues(lc);
      |v.extraVolumes| == |v.extraVolumeMounts| == 3
      && (forall i :: 0 <= i < 3 ==>
            v.extraVolumeMounts[i] == VolumeMount(v.extraVolumes[i].name, v.extraVolumes[i].hostPath, true))
      && (forall i, j :: 0 <= i < j < 3 ==> v.extraVolumes[i].name != v.extraVolumes[j].name)
  {
  }

  /** `GeneratePromtailConfig`: the encoded values under the single key "values", or the encoding error. */
  function GeneratePromtailConfig(lc: Clusters.LoggedCluster): (r: Result<ConfigMap>)
    ensures r.Ok? ==> r.value.meta == ConfigMeta(lc) && r.value.data.Keys == {"values"}
    ensures var m := MarshalValues(PromtailValues(lc));
      r == if m.Ok? then Ok(ConfigMap(ConfigMeta(lc), map["values" := m.value])) else Err(m.error)
  {
    match MarshalValues(PromtailValues(lc))
    case Err(e) => Err(e)
    case Ok(v) => Ok(ConfigMap(ConfigMeta(lc), map["values" := v]))
  }
}

/** pkg/resource/grafana-agent-config: the grafana-agent extra values that ship Kubernetes events to Loki. */
module GrafanaAgentConfig {
  import opened Kube
  import Clusters
  import Common
  import Credentials
  import Strings

  const ConfigName := "grafana-agent-config"

  /** Where the init container leaves the write password and where the agent reads it. */
  const PasswordFile := "/etc/agent/logging-write-secret"

  datatype InitContainer = InitContainer(name: string, image: string, command: seq<string>)
  datatype Values = Values(content: string, initContainers: seq<InitContainer>)

  /** YAML encoding of the values; a foreign library. */
  const MarshalValues: Values -> Result<string>

  /** `ConfigMeta`: "<cluster>-grafana-agent-config" in the cluster's apps namespace, with the common labels. */
  function ConfigMeta(lc: Clusters.LoggedCluster): (m: ObjectMeta)
    ensures m.name == Clusters.ClusterName(lc) + "-" + ConfigName
    ensures m.namespace == Clusters.AppsNamespace(lc) && m.labels == AddCommonLabels(map[])
  {
    ObjectMeta(Clusters.ClusterName(lc) + "-" + ConfigName, Clusters.AppsNamespace(lc), AddCommonLabels(map[]))
  }

  /** Two clusters with different names never share a grafana-agent config map. */
  lemma ConfigMetaSeparatesClusters(a: Clusters.LoggedCluster, b: Clusters.LoggedCluster)
    requires Clusters.ClusterName(a) != Clusters.ClusterName(b)
    ensures KeyOf(ConfigMeta(a)) != KeyOf(ConfigMeta(b))
  {
    Strings.SuffixKeepsDistinct(Clusters.ClusterName(a), Clusters.ClusterName(b), "-", ConfigName);
  }

  /** The namespaces whose events are collected, as a River list: two for a workload cluster, none otherwise. */
  function NamespacesScraped(lc: Clusters.LoggedCluster): (r: string)
    ensures Clusters.IsWorkloadCluster(lc) ==> r == "[\"kube-system\", \"giantswarm\"]"
    ensures !Clusters.IsWorkloadCluster(lc) ==> r == "[]"
  {
    if Clusters.IsWorkloadCluster(lc) then "[\"kube-system\", \"giantswarm\"]" else "[]"
  }

  // The fixed pieces of the agent configuration text, in order.
  const ContentHead := "\nlogging {\n\tlevel  = \"info\"\n\tformat = \"logfmt\"\n}\n\nloki.source.kubernetes_events \"local\" {\n\tnamespaces = "
  const ContentWriter := "\n\tforward_to = [loki.write.default.receiver]\n}\n\nloki.write \"default\" {\n\tendpoint {\n"
  const BasicAuthOpen := "\tbasic_auth {\n"
  const PasswordFileLine := "\t\tpassword_file = \"" + PasswordFile + "\"\n"
  const InstallationOpen := "\t}\n\t}\n\texternal_labels = {\n\t\tinstallation = \""
  const ClusterIDOpen := "\",\n\t\tcluster_id = \""
  const ContentTail := "\",\n\t\tscrape_job = \"kubernetes-events\",\n\t}\n}"

  /** The lines of the agent configuration that name the push endpoint and the login. */
  function EndpointURLLine(url: string): string { "\turl = \"" + url + "\"\n" }
  function TenantLine(tenantID: string): string { "\ttenant_id = \"" + tenantID + "\"\n" }
  function UsernameLine(username: string): string { "\t\tusername = \"" + username + "\"\n" }

  /** The event source block, open up to the endpoint of the writer block. */
  function EventsSource(namespaces: string): string { ContentHead + namespaces + ContentWriter }

  /** The close of the endpoint and the external labels block. */
  function ExternalLabels(installation: string, clusterID: string): string
  {
    InstallationOpen + installation + ClusterIDOpen + clusterID + ContentTail
  }

  /** The agent configuration text: read events, push them to Loki with basic auth and external labels. */
  function AgentContent(namespaces: string, url: string, tenantID: string, username: string,
                        installation: string, clusterID: string): string
  {
    EventsSource(namespaces) + EndpointURLLine(url) + TenantLine(tenantID) + BasicAuthOpen
    + UsernameLine(username) + PasswordFileLine + ExternalLabels(installation, clusterID)
  }

  /** The init container that writes the password where the agent will read it. */
  function StorePassword(writePassword: string): InitContainer
  {
    InitContainer("store-logging-write-password", "busybox:1.36",
                  ["- sh", "- -c", "- echo -n " + writePassword + " > " + PasswordFile])
  }

  /** The values `GenerateGrafanaAgentConfig` encodes for the cluster's write password. */
  function AgentValues(lc: Clusters.LoggedCluster, writePassword: string, lokiURL: string): (v: Values)
    ensures var name := Clusters.ClusterName(lc);
      v.content == AgentContent(NamespacesScraped(lc), Common.HttpsPushURL(lokiURL), name, name,
                                Clusters.InstallationName(lc), name)
    ensures v.initContainers == [StorePassword(writePassword)]
  {
    var name := Clusters.ClusterName(lc);
    Values(AgentContent(NamespacesScraped(lc), Common.HttpsPushURL(lokiURL), name, name, Clusters.InstallationName(lc), name),
           [StorePassword(writePassword)])
  }

  /**
   * The configuration pushes to the https push URL of `lokiURL`, as the
   * cluster's tenant and user, and reads the password from the file the only
   * init container writes it to; the password itself is only in that
   * container's command.
   */
  lemma AgentReadsStoredPassword(lc: Clusters.LoggedCluster, writePassword: string, lokiURL: string)
    ensures var v := AgentValues(lc, writePassword, lokiURL);
      var name := Clusters.ClusterName(lc);
      Strings.Contains(v.content, EndpointURLLine(Common.HttpsPushURL(lokiURL)))
      && Strings.Contains(v.content, TenantLine(name))
      && Strings.Contains(v.content, UsernameLine(name))
      && Strings.Contains(v.content, PasswordFileLine)
      && |v.initContainers| == 1
      && v.initContainers[0].command[2] == "- echo -n " + writePassword + " > " + PasswordFile
  {
    var name := Clusters.ClusterName(lc);
    Strings.ContainsLines(EventsSource(NamespacesScraped(lc)), EndpointURLLine(Common.HttpsPushURL(lokiURL)), TenantLine(name),
                          BasicAuthOpen, UsernameLine(name), PasswordFileLine, ExternalLabels(Clusters.InstallationName(lc), name));
  }

  /**
   * `GenerateGrafanaAgentConfig`: the cluster's password is looked up in the
   * credentials table; a lookup or encoding error is returned instead of a
   * config map, otherwise the encoded values sit under the single key "values".
   */
  function GenerateGrafanaAgentConfig(lc: Clusters.LoggedCluster, credentials: map<string, string>, lokiURL: string): (r: Result<ConfigMap>)
    ensures r.Ok? ==> r.value.meta == ConfigMeta(lc) && r.value.data.Keys == {"values"}
    ensures var pw := Credentials.GetPassword(credentials, Clusters.ClusterName(lc));
      (pw.Err? ==> r == Err(pw.error))
      && (pw.Ok? ==> (var m := MarshalValues(AgentValues(lc, pw.value, lokiURL));
                      r == if m.Ok? then Ok(ConfigMap(ConfigMeta(lc), map["values" := m.value])) else Err(m.error)))
  {
    match Credentials.GetPassword(credentials, Clusters.ClusterName(lc))
    case Err(e) => Err(e)
    case Ok(pw) =>
      match MarshalValues(AgentValues(lc, pw, lokiURL))
      case Err(e) => Err(e)
      case Ok(v) => Ok(ConfigMap(ConfigMeta(lc), map["values" := v]))
  }
}

/** pkg/resource/grafana-agent-secret: the grafana-agent secret holding a cluster's Loki write credentials. */
module GrafanaAgentSecret {
  import opened Kube
  import Clusters
  import Common
  import Credentials
  import Strings

  const SecretName := "grafana-agent-secret"

  /** The values document: push URL, tenant, user and password under the LOGGING_* keys. */
  datatype Values = Values(url: string, tenantID: string, username: string, password: string)

  /** YAML encoding of the values; a foreign library. */
  const MarshalValues: Values -> Result<string>

  /** `SecretMeta`: "<cluster>-grafana-agent-secret" in the namespace the caller names, with the common labels. */
  function SecretMeta(lc: Clusters.LoggedCluster, secretNamespace: string): (m: ObjectMeta)
    ensures m.name == Clusters.ClusterName(lc) + "-" + SecretName
    ensures m.namespace == secretNamespace && m.labels == AddCommonLabels(map[])
  {
    ObjectMeta(Clusters.ClusterName(lc) + "-" + SecretName, secretNamespace, AddCommonLabels(map[]))
  }

  /** Two clusters with different names never share a grafana-agent secret. */
  lemma SecretMetaSeparatesClusters(a: Clusters.LoggedCluster, b: Clusters.LoggedCluster, secretNamespace: string)
    requires Clusters.ClusterName(a) != Clusters.ClusterName(b)
    ensures KeyOf(SecretMeta(a, secretNamespace)) != KeyOf(SecretMeta(b, secretNamespace))
  {
    Strings.SuffixKeepsDistinct(Clusters.ClusterName(a), Clusters.ClusterName(b), "-", SecretName);
  }

  /**
   * `GenerateGrafanaAgentSecret`: the cluster's password is looked up in the
   * credentials table; a lookup or encoding error is returned instead of a
   * secret, otherwise the encoded values (https push URL, the cluster as tenant
   * and user, its password) sit under the single key "values".
   */
  function GenerateGrafanaAgentSecret(lc: Clusters.LoggedCluster, credentials: map<string, string>, lokiURL: string,
                                      secretNamespace: string): (r: Result<Secret>)
    ensures r.Ok? ==> r.value.meta == SecretMeta(lc, secretNamespace) && r.value.data.Keys == {"values"}
    ensures var name := Clusters.ClusterName(lc);
      var pw := Credentials.GetPassword(credentials, name);
      (pw.Err? ==> r == Err(pw.error))
      && (pw.Ok? ==> (var m := MarshalValues(Values(Common.HttpsPushURL(lokiURL), name, name, pw.value));
                      r == if m.Ok? then Ok(Secret(SecretMeta(lc, secretNamespace), map["values" := m.value])) else Err(m.error)))
  {
    var name := Clusters.ClusterName(lc);
    match Credentials.GetPassword(credentials, name)
    case Err(e) => Err(e)
    case Ok(pw) =>
      match MarshalValues(Values(Common.HttpsPushURL(lokiURL), name, name, pw))
      case Err(e) => Err(e)
      case Ok(v) => Ok(Secret(SecretMeta(lc, secretNamespace), map["values" := v]))
  }

  /** A secret is produced exactly when the cluster has a readable password and its values encode. */
  lemma GeneratedIffPasswordStored(lc: Clusters.LoggedCluster, credentials: map<string, string>, lokiURL: string, secretNamespace: string)
    ensures var name := Clusters.ClusterName(lc);
      var pw := Credentials.GetPassword(credentials, name);
      (GenerateGrafanaAgentSecret(lc, credentials, lokiURL, secretNamespace).Ok? <==>
       pw.Ok? && MarshalValues(Values(Common.HttpsPushURL(lokiURL), name, name, pw.value)).Ok?)
  {
  }
}

/** pkg/resource/grafana-datasource: the Loki datasource Grafana uses to read logs. */
module GrafanaDatasource {
  import opened Kube
  import Common
  import Credentials

  const LokiURL := "http://grafana-multi-tenant-proxy.monitoring.svc"
  const DatasourceName := "Loki"
  const DatasourceSecretName := "loki-datasource"
  const DatasourceSecretNamespace := "monitoring"
  const DatasourceFileName := "loki-datasource.yaml"
  const KindLabel := "app.giantswarm.io/kind"

  datatype Datasource = Datasource(access: string, editable: bool, basicAuth: bool, basicAuthUser: string,
                                   manageAlerts: bool, name: string, kind: string, url: string, basicAuthPassword: string)
  datatype Values = Values(apiVersion: int, datasources: seq<Datasource>)

  /** YAML encoding of the values; a foreign library. */
  const MarshalValues: Values -> Result<string>

  /**
   * `DatasourceSecretMeta`: the fixed "loki-datasource" in "monitoring",
   * labelled as a datasource on top of the common labels. The cluster plays no
   * part in it.
   */
  function DatasourceSecretMeta(): (m: ObjectMeta)
    ensures m.name == DatasourceSecretName && m.namespace == DatasourceSecretNamespace
    ensures m.labels.Keys == {KindLabel} + CommonLabels.Keys
    ensures KindLabel !in CommonLabels ==> m.labels[KindLabel] == "datasource"
  {
    ObjectMeta(DatasourceSecretName, DatasourceSecretNamespace, AddCommonLabels(map[KindLabel := "datasource"]))
  }

  /** The single datasource, reading through the proxy as `user` with `password`. */
  function LokiDatasource(user: string, password: string): (d: Datasource)
    ensures d.kind == "loki" && d.name == DatasourceName && d.url == LokiURL && d.access == "proxy"
    ensures !d.editable && d.basicAuth && !d.manageAlerts
    ensures d.basicAuthUser == user && d.basicAuthPassword == password
  {
    Datasource("proxy", false, true, user, false, DatasourceName, "loki", LokiURL, password)
  }

  /**
   * `GenerateDatasourceSecret`: the read user's password is looked up in the
   * credentials table; a lookup or encoding error is returned instead of a
   * secret, otherwise the encoded values sit under the single key
   * "loki-datasource.yaml".
   */
  function GenerateDatasourceSecret(credentials: map<string, string>): (r: Result<Secret>)
    ensures r.Ok? ==> r.value.meta == DatasourceSecretMeta() && r.value.data.Keys == {DatasourceFileName}
    ensures var pw := Credentials.GetPassword(credentials, Common.ReadUser);
      (pw.Err? ==> r == Err(pw.error))
      && (pw.Ok? ==> (var m := MarshalValues(Values(1, [LokiDatasource(Common.ReadUser, pw.value)]));
                      r == if m.Ok? then Ok(Secret(DatasourceSecretMeta(), map[DatasourceFileName := m.value])) else Err(m.error)))
  {
    match Credentials.GetPassword(credentials, Common.ReadUser)
    case Err(e) => Err(e)
    case Ok(pw) =>
      match MarshalValues(Values(1, [LokiDatasource(Common.ReadUser, pw)]))
      case Err(e) => Err(e)
      case Ok(v) => Ok(Secret(DatasourceSecretMeta(), map[DatasourceFileName := v]))
  }

  /** A generated datasource logs in as the read user with the password the credentials table stores for it. */
  lemma DatasourceUsesReadCredentials(credentials: map<string, string>)
    requires GenerateDatasourceSecret(credentials).Ok?
    ensures var pw := Credentials.GetPassword(credentials, Common.ReadUser);
      pw.Ok? && (var d := LokiDatasource(Common.ReadUser, pw.value);
                 d.basicAuthUser == Common.ReadUser && Credentials.GetPassword(credentials, d.basicAuthUser) == Ok(d.basicAuthPassword))
  {
  }
}
