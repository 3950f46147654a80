/**
 * pkg/resource/logging-config: the per-cluster logging config map, chosen by
 * the logging agent, and the tenant list read from the Grafana organisations.
 */
module LoggingConfig {
  import opened Kube
  import Common
  import Strings
  import Semver
  import ClusterHelpers

  const ConfigName := "logging-config"

  /** The promtail template renderer (cluster, installation); its body is not part of this model. */
  const RenderPromtail: (ClusterHelpers.Cluster, string) -> Result<string>

  /**
   * The alloy template renderer (cluster, agent, bundle version, default
   * namespaces, tenants, installation, insecure CA).
   */
  const RenderAlloy: (ClusterHelpers.Cluster, string, Semver.SemVer, seq<string>, seq<string>, string, bool) -> Result<string>

  /** `ConfigMeta`: "<cluster>-logging-config" in the cluster's namespace, with the common labels. */
  function ConfigMeta(cluster: ClusterHelpers.Cluster): (m: ObjectMeta)
    ensures m.name == cluster.meta.name + "-" + ConfigName
    ensures m.namespace == cluster.meta.namespace
    ensures m.labels == CommonLabels
  {
    ObjectMeta(cluster.meta.name + "-" + ConfigName, cluster.meta.namespace, AddCommonLabels(map[]))
  }

  /** Two clusters of one namespace never share a logging config map. */
  lemma ConfigMetaSeparatesClusters(a: ClusterHelpers.Cluster, b: ClusterHelpers.Cluster)
    requires a.meta.name != b.meta.name
    ensures ConfigMeta(a).name != ConfigMeta(b).name
  {
    var na, nb := ConfigMeta(a).name, ConfigMeta(b).name;
    assert a.meta.name == na[..|a.meta.name|] && b.meta.name == nb[..|b.meta.name|];
    assert |na| == |a.meta.name| + 1 + |ConfigName| && |nb| == |b.meta.name| + 1 + |ConfigName|;
  }

  /** The values text for the agent: its renderer's result, or None for an agent this operator does not know. */
  function AgentValues(cluster: ClusterHelpers.Cluster, agent: string, bundle: Semver.SemVer, defaultNamespaces: seq<string>,
                       tenants: seq<string>, installationName: string, insecureCA: bool): Option<Result<string>>
  {
    if agent == Common.LoggingAgentPromtail then Some(RenderPromtail(cluster, installationName))
    else if agent == Common.LoggingAgentAlloy then Some(RenderAlloy(cluster, agent, bundle, defaultNamespaces, tenants, installationName, insecureCA))
    else None
  }

  /**
   * `GenerateLoggingConfig`: promtail and alloy are rendered by their own
   * templates, any other agent is refused; the config map carries the values
   * under the single key "values".
   */
  function GenerateLoggingConfig(cluster: ClusterHelpers.Cluster, agent: string, bundle: Semver.SemVer, defaultNamespaces: seq<string>,
                                 tenants: seq<string>, installationName: string, insecureCA: bool): (r: Result<ConfigMap>)
    ensures r.Ok? ==> r.value.meta == ConfigMeta(cluster) && r.value.data.Keys == {"values"}
    ensures agent != Common.LoggingAgentPromtail && agent != Common.LoggingAgentAlloy ==>
              r == Err(Failure("unsupported logging agent " + Strings.Quoted(agent)))
    ensures agent == Common.LoggingAgentPromtail ==> (r.Ok? <==> RenderPromtail(cluster, installationName).Ok?)
    ensures agent == Common.LoggingAgentPromtail && r.Ok? ==> r.value.data["values"] == RenderPromtail(cluster, installationName).value
    ensures agent == Common.LoggingAgentPromtail && r.Err? ==> r.error == RenderPromtail(cluster, installationName).error
    ensures agent != Common.LoggingAgentPromtail && agent == Common.LoggingAgentAlloy ==>
              r == (var v := RenderAlloy(cluster, agent, bundle, defaultNamespaces, tenants, installationName, insecureCA);
                        if v.Ok? then Ok(ConfigMap(ConfigMeta(cluster), map["values" := v.value])) else Err(v.error))
  {
    match AgentValues(cluster, agent, bundle, defaultNamespaces, tenants, installationName, insecureCA)
    case None => Err(Failure("unsupported logging agent " + Strings.Quoted(agent)))
    case Some(Err(e)) => Err(e)
    case Some(Ok(values)) => Ok(ConfigMap(ConfigMeta(cluster), map["values" := values]))
  }

  /** A `GrafanaOrganization`: whether it is being deleted, and its tenants. */
  datatype Organization = Organization(deleting: bool, tenants: seq<string>)

  /** The tenants of the organisations that are not being deleted, in listing order, repeats kept. */
  function LiveTenants(orgs: seq<Organization>): seq<string>
  {
    if |orgs| == 0 then []
    else
      var last := orgs[|orgs| - 1];
      LiveTenants(orgs[..|orgs| - 1]) + (if last.deleting then [] else last.tenants)
  }

  /** `s` with every element kept at its first appearance only. */
  function Dedup(s: seq<string>): seq<string>
  {
    if |s| == 0 then []
    else
      var d := Dedup(s[..|s| - 1]);
      if s[|s| - 1] in d then d else d + [s[|s| - 1]]
  }

  /** Position of the first appearance of `x` in `s`. */
  function FirstIndex(s: seq<string>, x: string): (k: nat)
    requires x in s
    ensures k < |s| && s[k] == x && x !in s[..k]
  {
    if s[0] == x then 0
    else
      assert x in s[1..] by { var i :| 0 <= i < |s| && s[i] == x; assert s[1..][i - 1] == x; }
      var k := 1 + FirstIndex(s[1..], x);
      assert s[..k] == [s[0]] + s[1..][..k - 1];
      k
  }

  /** Appending to a sequence does not move the first appearance of what it already held. */
  lemma FirstIndexAppend(s: seq<string>, t: string, x: string)
    requires x in s
    ensures x in s + [t] && FirstIndex(s + [t], x) == FirstIndex(s, x)
  {
    var k := FirstIndex(s, x);
    assert (s + [t])[k] == x;
    assert (s + [t])[..k] == s[..k];
  }

  /** `Dedup` keeps exactly the elements of `s`, each once, ordered by their first appearance in `s`. */
  lemma {:induction false} DedupSpec(s: seq<string>)
    ensures forall x :: x in Dedup(s) <==> x in s
    ensures forall i, j :: 0 <= i < j < |Dedup(s)| ==> Dedup(s)[i] != Dedup(s)[j]
    ensures forall i, j :: 0 <= i < j < |Dedup(s)| ==>
              (Dedup(s)[i] in s && Dedup(s)[j] in s && FirstIndex(s, Dedup(s)[i]) < FirstIndex(s, Dedup(s)[j]))
  {
    if |s| > 0 {
      var p, t := s[..|s| - 1], s[|s| - 1];
      assert s == p + [t];
      DedupSpec(p);
      var d := Dedup(p);
      forall i | 0 <= i < |d|
        ensures d[i] in s && FirstIndex(s, d[i]) == FirstIndex(p, d[i]) < |p|
      {
        FirstIndexAppend(p, t, d[i]);
      }
      if t !in d {
        assert t !in p;
        assert FirstIndex(s, t) == |p|;
      }
    }
  }

  lemma {:induction false} LiveTenantsMembers(orgs: seq<Organization>, t: string)
    ensures t in LiveTenants(orgs) <==> exists k :: 0 <= k < |orgs| && !orgs[k].deleting && t in orgs[k].tenants
  {
    if |orgs| > 0 {
      var front := orgs[..|orgs| - 1];
      LiveTenantsMembers(front, t);
      if exists k :: 0 <= k < |front| && !front[k].deleting && t in front[k].tenants {
        var k :| 0 <= k < |front| && !front[k].deleting && t in front[k].tenants;
        assert orgs[k] == front[k];
      }
      if exists k :: 0 <= k < |orgs| && !orgs[k].deleting && t in orgs[k].tenants {
        var k :| 0 <= k < |orgs| && !orgs[k].deleting && t in orgs[k].tenants;
        if k < |front| { assert front[k] == orgs[k]; }
      }
    }
  }

  /**
   * What `listTenants` returns: no tenant twice, in the order of first
   * appearance, and exactly the tenants of organisations not being deleted.
   */
  lemma ListedTenants(orgs: seq<Organization>)
    ensures var r := Dedup(LiveTenants(orgs));
      forall i, j :: 0 <= i < j < |r| ==> r[i] != r[j]
    ensures forall t :: t in Dedup(LiveTenants(orgs)) <==> exists k :: 0 <= k < |orgs| && !orgs[k].deleting && t in orgs[k].tenants
    ensures var s, r := LiveTenants(orgs), Dedup(LiveTenants(orgs));
      forall i, j :: 0 <= i < j < |r| ==> r[i] in s && r[j] in s && FirstIndex(s, r[i]) < FirstIndex(s, r[j])
  {
    DedupSpec(LiveTenants(orgs));
    forall t
      ensures t in Dedup(LiveTenants(orgs)) <==> exists k :: 0 <= k < |orgs| && !orgs[k].deleting && t in orgs[k].tenants
    {
      LiveTenantsMembers(orgs, t);
    }
  }

  lemma DedupStep(s: seq<string>, x: string)
    ensures Dedup(s + [x]) == if x in Dedup(s) then Dedup(s) else Dedup(s) + [x]
  {
    assert (s + [x])[..|s|] == s;
  }

  lemma LiveTenantsStep(orgs: seq<Organization>, i: nat)
    requires i < |orgs|
    ensures LiveTenants(orgs[..i + 1]) == LiveTenants(orgs[..i]) + (if orgs[i].deleting then [] else orgs[i].tenants)
  {
    assert orgs[..i + 1][..i] == orgs[..i];
  }

  /** The inner loop of `listTenants`: append each of `add` that is not collected yet. */
  method AppendNew(tenants: seq<string>, ghost seen: seq<string>, add: seq<string>) returns (r: seq<string>)
    requires tenants == Dedup(seen)
    ensures r == Dedup(seen + add)
  {
    r := tenants;
    assert seen + add[..0] == seen;
    for j := 0 to |add|
      invariant r == Dedup(seen + add[..j])
    {
      assert seen + add[..j + 1] == (seen + add[..j]) + [add[j]];
      DedupStep(seen + add[..j], add[j]);
      if add[j] !in r {
        r := r + [add[j]];
      }
    }
    assert add[..|add|] == add;
  }

  /**
   * `listTenants`: a failed listing is returned as it is; otherwise the loop
   * walks the organisations, skips those being deleted, and appends each
   * tenant not yet collected.
   */
  method ListTenants(listed: Result<seq<Organization>>) returns (r: Result<seq<string>>)
    ensures listed.Err? ==> r == Err(listed.error)
    ensures listed.Ok? ==> r == Ok(Dedup(LiveTenants(listed.value)))
  {
    if listed.Err? {
      return Err(listed.error);
    }
    var orgs := listed.value;
    var tenants: seq<string> := [];
    for i := 0 to |orgs|
      invariant tenants == Dedup(LiveTenants(orgs[..i]))
    {
      LiveTenantsStep(orgs, i);
      if orgs[i].deleting {
        assert LiveTenants(orgs[..i + 1]) == LiveTenants(orgs[..i]) + [] == LiveTenants(orgs[..i]);
        continue;
      }
      tenants := AppendNew(tenants, LiveTenants(orgs[..i]), orgs[i].tenants);
      assert LiveTenants(orgs[..i + 1]) == LiveTenants(orgs[..i]) + orgs[i].tenants;
    }
    assert orgs[..|orgs|] == orgs;
    return Ok(tenants);
  }
}

/** pkg/resource/events-logger-config: the events-logger config map of a Cluster API cluster. */
module EventsLoggerConfig {
  import opened Kube
  import Common
  import Strings
  import ClusterHelpers

  const EventsLoggerConfigName := "events-logger-config"
  const GrafanaAgentConfigName := "grafana-agent-config"

  /** The grafana-agent renderer (cluster, events logger, include and exclude namespaces, installation, insecure CA). */
  const RenderGrafanaAgent: (ClusterHelpers.Cluster, string, seq<string>, seq<string>, string, bool) -> Result<string>
  /** The alloy renderer (cluster, include and exclude namespaces, installation, insecure CA, tempo URL). */
  const RenderAlloyEvents: (ClusterHelpers.Cluster, seq<string>, seq<string>, string, bool, string) -> Result<string>

  /** `getEventsLoggerConfigName`: the grafana-agent name for grafana-agent, the events-logger name otherwise. */
  function ConfigName(cluster: ClusterHelpers.Cluster, logger: string): (name: string)
    ensures logger == Common.EventsLoggerGrafanaAgent ==> name == cluster.meta.name + "-" + GrafanaAgentConfigName
    ensures logger != Common.EventsLoggerGrafanaAgent ==> name == cluster.meta.name + "-" + EventsLoggerConfigName
  {
    if logger == Common.EventsLoggerGrafanaAgent then cluster.meta.name + "-" + GrafanaAgentConfigName
    else cluster.meta.name + "-" + EventsLoggerConfigName
  }

  /** The two loggers of one cluster write differently named config maps. */
  lemma ConfigNameSeparatesLoggers(cluster: ClusterHelpers.Cluster, logger: string)
    requires logger != Common.EventsLoggerGrafanaAgent
    ensures ConfigName(cluster, logger) != ConfigName(cluster, Common.EventsLoggerGrafanaAgent)
  {
    var n := |cluster.meta.name| + 1;
    assert ConfigName(cluster, logger)[n] == 'e';
    assert ConfigName(cluster, Common.EventsLoggerGrafanaAgent)[n] == 'g';
  }

  function ConfigMeta(cluster: ClusterHelpers.Cluster, logger: string): (m: ObjectMeta)
    ensures m.name == ConfigName(cluster, logger)
    ensures m.namespace == cluster.meta.namespace
    ensures m.labels == CommonLabels
  {
    ObjectMeta(ConfigName(cluster, logger), cluster.meta.namespace, AddCommonLabels(map[]))
  }

  /**
   * `generateEventsLoggerConfig`: grafana-agent and alloy are rendered by
   * their own templates; any other logger, or a renderer error, gives an
   * error and no config map.
   */
  function Generate(cluster: ClusterHelpers.Cluster, logger: string, includeNs: seq<string>, excludeNs: seq<string>,
                    installationName: string, insecureCA: bool, tempoURL: string): (r: Result<ConfigMap>)
    ensures r.Ok? ==> r.value.meta == ConfigMeta(cluster, logger) && r.value.data.Keys == {"values"}
    ensures logger != Common.EventsLoggerGrafanaAgent && logger != Common.EventsLoggerAlloy ==>
              r == Err(Failure("unsupported events logger " + Strings.Quoted(logger)))
    ensures logger == Common.EventsLoggerGrafanaAgent ==>
              (var v := RenderGrafanaAgent(cluster, logger, includeNs, excludeNs, installationName, insecureCA);
                   (r.Ok? <==> v.Ok?) && (r.Ok? ==> r.value.data["values"] == v.value) && (r.Err? ==> r.error == v.error))
    ensures logger != Common.EventsLoggerGrafanaAgent && logger == Common.EventsLoggerAlloy ==>
              (var v := RenderAlloyEvents(cluster, includeNs, excludeNs, installationName, insecureCA, tempoURL);
                   (r.Ok? <==> v.Ok?) && (r.Ok? ==> r.value.data["values"] == v.value) && (r.Err? ==> r.error == v.error))
  {
    var values: Option<Result<string>> :=
      if logger == Common.EventsLoggerGrafanaAgent then Some(RenderGrafanaAgent(cluster, logger, includeNs, excludeNs, installationName, insecureCA))
      else if logger == Common.EventsLoggerAlloy then Some(RenderAlloyEvents(cluster, includeNs, excludeNs, installationName, insecureCA, tempoURL))
      else None;
    match values
    case None => Err(Failure("unsupported events logger " + Strings.Quoted(logger)))
    case Some(Err(e)) => Err(e)
    case Some(Ok(v)) => Ok(ConfigMap(ConfigMeta(cluster, logger), map["values" := v]))
  }
}

/** pkg/resource/k8s-events-config: the events-logger config map of any logged cluster. */
module K8sEventsConfig {
  import opened Kube
  import Common
  import Strings
  import Semver
  import Clusters

  const EventsLoggerConfigName := "events-logger-config"

  /** The grafana-agent renderer (cluster, default namespaces). */
  const RenderGrafanaAgent: (Clusters.LoggedCluster, seq<string>) -> Result<string>
  /** The alloy renderer (cluster, bundle version, default namespaces). */
  const RenderAlloyEvents: (Clusters.LoggedCluster, Semver.SemVer, seq<string>) -> Result<string>

  /** `ConfigMeta`: "<cluster>-events-logger-config" whatever the logger, in the cluster's apps namespace. */
  function ConfigMeta(lc: Clusters.LoggedCluster): (m: ObjectMeta)
    ensures m.name == Clusters.ClusterName(lc) + "-" + EventsLoggerConfigName
    ensures m.namespace == Clusters.AppsNamespace(lc)
    ensures m.labels == CommonLabels
  {
    ObjectMeta(Clusters.ClusterName(lc) + "-" + EventsLoggerConfigName, Clusters.AppsNamespace(lc), AddCommonLabels(map[]))
  }

  /** `GenerateEventsLoggerConfig`: dispatch on the cluster's events logger. */
  function Generate(lc: Clusters.LoggedCluster, bundle: Semver.SemVer, defaultNamespaces: seq<string>): (r: Result<ConfigMap>)
    reads lc.agent
    ensures r.Ok? ==> r.value.meta == ConfigMeta(lc) && r.value.data.Keys == {"values"}
    ensures var logger := lc.agent.GetKubeEventsLogger();
      (logger != Common.EventsLoggerGrafanaAgent && logger != Common.EventsLoggerAlloy ==>
         r == Err(Failure("unsupported events logger " + Strings.Quoted(logger))))
    ensures var v := RenderGrafanaAgent(lc, defaultNamespaces);
      (lc.agent.GetKubeEventsLogger() == Common.EventsLoggerGrafanaAgent ==>
         (r.Ok? <==> v.Ok?) && (r.Ok? ==> r.value.data["values"] == v.value) && (r.Err? ==> r.error == v.error))
    ensures var logger, v := lc.agent.GetKubeEventsLogger(), RenderAlloyEvents(lc, bundle, defaultNamespaces);
      (logger != Common.EventsLoggerGrafanaAgent && logger == Common.EventsLoggerAlloy ==>
         (r.Ok? <==> v.Ok?) && (r.Ok? ==> r.value.data["values"] == v.value) && (r.Err? ==> r.error == v.error))
  {
    var logger := lc.agent.GetKubeEventsLogger();
    var values: Option<Result<string>> :=
      if logger == Common.EventsLoggerGrafanaAgent then Some(RenderGrafanaAgent(lc, defaultNamespaces))
      else if logger == Common.EventsLoggerAlloy then Some(RenderAlloyEvents(lc, bundle, defaultNamespaces))
      else None;
    match values
    case None => Err(Failure("unsupported events logger " + Strings.Quoted(logger)))
    case Some(Err(e)) => Err(e)
    case Some(Ok(v)) => Ok(ConfigMap(ConfigMeta(lc), map["values" := v]))
  }
}
