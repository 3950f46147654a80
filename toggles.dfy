/**
 * The `apps` values the operator writes for the observability bundle, and
 * their YAML encoding, which is defined outside this model.
 */
module BundleValues {
  import opened Kube

  /** One app entry; an empty namespace is the omitted one. */
  datatype AppToggle = AppToggle(enabled: bool, namespace: string)

  /** `yaml.Marshal(Values{Apps: apps})`. */
  const MarshalApps: map<string, AppToggle> -> Result<string>

  const Enabled := AppToggle(true, "")
  const Disabled := AppToggle(false, "")

  /** A config map whose only data key, "values", holds the encoded apps. */
  function ValuesConfigMap(meta: ObjectMeta, apps: map<string, AppToggle>): (r: Result<ConfigMap>)
    ensures r.Err? <==> MarshalApps(apps).Err?
    ensures r.Err? ==> r.error == MarshalApps(apps).error
    ensures r.Ok? ==> r.value.meta == meta && r.value.data == map["values" := MarshalApps(apps).value]
  {
    match MarshalApps(apps)
      case Err(e) => Err(e)
      case Ok(v) => Ok(ConfigMap(meta, map["values" := v]))
  }
}

/** pkg/resource/agents-toggle: enable the chosen logging agent and events logger in the bundle. */
module AgentsToggle {
  import opened Kube
  import Semver
  import Common
  import LoggedCluster
  import ControllerUtil
  import opened BundleValues

  /** The Go map `appsToEnable` the two toggles write into. */
  class AppsToEnable {
    var apps: map<string, AppToggle>

    constructor ()
      ensures apps == map[]
    {
      apps := map[];
    }
  }

  function UnsupportedAgent(agent: string): Error
  {
    Failure("unsupported logging agent \"" + agent + "\"")
  }

  function UnsupportedLogger(logger: string): Error
  {
    Failure("unsupported events logger \"" + logger + "\"")
  }

  /** The entries written for a logging agent; None for an unsupported one. */
  function LogAgentEntries(agent: string): Option<map<string, AppToggle>>
  {
    if agent == Common.LoggingAgentPromtail then
      Some(map[Common.PromtailObservabilityBundleAppName := Enabled][Common.AlloyObservabilityBundleAppName := Disabled])
    else if agent == Common.LoggingAgentAlloy then
      Some(map[Common.AlloyObservabilityBundleAppName := AppToggle(true, Common.AlloyLogAgentAppNamespace)]
             [Common.PromtailObservabilityBundleAppName := Disabled])
    else None
  }

  /** The entries written for an events logger; None for an unsupported one. */
  function EventsLoggerEntries(logger: string): Option<map<string, AppToggle>>
  {
    if logger == Common.EventsLoggerGrafanaAgent then Some(map["grafanaAgent" := Enabled]["alloyEvents" := Disabled])
    else if logger == Common.EventsLoggerAlloy then Some(map["grafanaAgent" := Disabled]["alloyEvents" := Enabled])
    else None
  }

  /**
   * Promtail and alloy are the supported agents; of their two bundle apps
   * exactly one is enabled, the chosen one, and alloy with its namespace.
   */
  lemma LogAgentEntriesEnableOne(agent: string)
    requires Common.PromtailObservabilityBundleAppName != Common.AlloyObservabilityBundleAppName
    ensures LogAgentEntries(agent).Some? <==> agent == Common.LoggingAgentPromtail || agent == Common.LoggingAgentAlloy
    ensures LogAgentEntries(agent).Some? ==>
      var m := LogAgentEntries(agent).value;
      && m.Keys == {Common.PromtailObservabilityBundleAppName, Common.AlloyObservabilityBundleAppName}
      && (m[Common.PromtailObservabilityBundleAppName].enabled <==> agent == Common.LoggingAgentPromtail)
      && (m[Common.AlloyObservabilityBundleAppName].enabled <==> !m[Common.PromtailObservabilityBundleAppName].enabled)
      && (m[Common.AlloyObservabilityBundleAppName].enabled ==> m[Common.AlloyObservabilityBundleAppName].namespace == Common.AlloyLogAgentAppNamespace)
  {
  }

  /** Grafana-agent and alloy are the supported events loggers; exactly one of their apps is enabled. */
  lemma EventsLoggerEntriesEnableOne(logger: string)
    ensures EventsLoggerEntries(logger).Some? <==> logger == Common.EventsLoggerGrafanaAgent || logger == Common.EventsLoggerAlloy
    ensures EventsLoggerEntries(logger).Some? ==>
      var m := EventsLoggerEntries(logger).value;
      && m.Keys == {"grafanaAgent", "alloyEvents"}
      && (m["grafanaAgent"].enabled <==> logger == Common.EventsLoggerGrafanaAgent)
      && (m["alloyEvents"].enabled <==> !m["grafanaAgent"].enabled)
  {
  }

  /** `toggleLogAgent`: apply the alloy fallback to the cluster, then write the agent's entries. */
  method ToggleLogAgent(agent: LoggedCluster.LoggingAgent, bundle: Semver.SemVer, apps: AppsToEnable) returns (err: Option<Error>)
    modifies agent, apps
    ensures agent.loggingAgent == ControllerUtil.LoggingAgentFor(old(agent.loggingAgent), bundle)
    ensures agent.kubeEventsLogger == old(agent.kubeEventsLogger)
    ensures LogAgentEntries(agent.loggingAgent).None? ==> err == Some(UnsupportedAgent(agent.loggingAgent)) && apps.apps == old(apps.apps)
    ensures LogAgentEntries(agent.loggingAgent).Some? ==> err.None? && apps.apps == old(apps.apps) + LogAgentEntries(agent.loggingAgent).value
  {
    if Semver.Below(bundle, ControllerUtil.SupportAlloyLogs) && agent.GetLoggingAgent() == Common.LoggingAgentAlloy {
      agent.SetLoggingAgent(Common.LoggingAgentPromtail);
    }
    var chosen := agent.GetLoggingAgent();
    if chosen == Common.LoggingAgentPromtail {
      apps.apps := apps.apps[Common.PromtailObservabilityBundleAppName := Enabled];
      apps.apps := apps.apps[Common.AlloyObservabilityBundleAppName := Disabled];
    } else if chosen == Common.LoggingAgentAlloy {
      apps.apps := apps.apps[Common.AlloyObservabilityBundleAppName := AppToggle(true, Common.AlloyLogAgentAppNamespace)];
      apps.apps := apps.apps[Common.PromtailObservabilityBundleAppName := Disabled];
    } else {
      return Some(UnsupportedAgent(chosen));
    }
    err := None;
  }

  /** `toggleKubeEventsLogger`: apply the alloy fallback to the cluster, then write the logger's entries. */
  method ToggleKubeEventsLogger(agent: LoggedCluster.LoggingAgent, bundle: Semver.SemVer, apps: AppsToEnable) returns (err: Option<Error>)
    modifies agent, apps
    ensures agent.kubeEventsLogger == ControllerUtil.EventsLoggerFor(old(agent.kubeEventsLogger), bundle)
    ensures agent.loggingAgent == old(agent.loggingAgent)
    ensures EventsLoggerEntries(agent.kubeEventsLogger).None? ==> err == Some(UnsupportedLogger(agent.kubeEventsLogger)) && apps.apps == old(apps.apps)
    ensures EventsLoggerEntries(agent.kubeEventsLogger).Some? ==> err.None? && apps.apps == old(apps.apps) + EventsLoggerEntries(agent.kubeEventsLogger).value
  {
    if Semver.Below(bundle, ControllerUtil.SupportAlloyEvents) && agent.GetKubeEventsLogger() == Common.EventsLoggerAlloy {
      agent.SetKubeEventsLogger(Common.EventsLoggerGrafanaAgent);
    }
    var chosen := agent.GetKubeEventsLogger();
    if chosen == Common.EventsLoggerGrafanaAgent {
      apps.apps := apps.apps["grafanaAgent" := Enabled];
      apps.apps := apps.apps["alloyEvents" := Disabled];
    } else if chosen == Common.EventsLoggerAlloy {
      apps.apps := apps.apps["grafanaAgent" := Disabled];
      apps.apps := apps.apps["alloyEvents" := Enabled];
    } else {
      return Some(UnsupportedLogger(chosen));
    }
    err := None;
  }

  /**
   * The bundle values for a logging agent and an events logger after the
   * fallbacks: the agent is checked first, and an unsupported one stops
   * before the events logger is looked at.
   */
  function BundleApps(loggingAgent: string, eventsLogger: string, bundle: Semver.SemVer): Result<map<string, AppToggle>>
  {
    var agent := ControllerUtil.LoggingAgentFor(loggingAgent, bundle);
    var logger := ControllerUtil.EventsLoggerFor(eventsLogger, bundle);
    match LogAgentEntries(agent)
      case None => Err(UnsupportedAgent(agent))
      case Some(l) =>
        match EventsLoggerEntries(logger)
          case None => Err(UnsupportedLogger(logger))
          case Some(e) => Ok(l + e)
  }

  /** With supported choices the values name four apps, one logging agent and one events logger enabled. */
  lemma BundleAppsEnableOneOfEach(loggingAgent: string, eventsLogger: string, bundle: Semver.SemVer)
    requires Common.PromtailObservabilityBundleAppName != Common.AlloyObservabilityBundleAppName
    requires Common.PromtailObservabilityBundleAppName !in {"grafanaAgent", "alloyEvents"}
    requires Common.AlloyObservabilityBundleAppName !in {"grafanaAgent", "alloyEvents"}
    requires BundleApps(loggingAgent, eventsLogger, bundle).Ok?
    ensures var m := BundleApps(loggingAgent, eventsLogger, bundle).value;
      && |m.Keys| == 4
      && (m[Common.PromtailObservabilityBundleAppName].enabled != m[Common.AlloyObservabilityBundleAppName].enabled)
      && (m["grafanaAgent"].enabled != m["alloyEvents"].enabled)
  {
    var agent := ControllerUtil.LoggingAgentFor(loggingAgent, bundle);
    var logger := ControllerUtil.EventsLoggerFor(eventsLogger, bundle);
    LogAgentEntriesEnableOne(agent);
    EventsLoggerEntriesEnableOne(logger);
    var m := BundleApps(loggingAgent, eventsLogger, bundle).value;
    var p, a := Common.PromtailObservabilityBundleAppName, Common.AlloyObservabilityBundleAppName;
    assert m.Keys == {p, a} + {"grafanaAgent", "alloyEvents"};
    assert m.Keys == {p, a, "grafanaAgent", "alloyEvents"};
  }

  /**
   * `generateObservabilityBundleConfig`: the two toggles into a fresh map,
   * then the YAML of the values; any error leaves the output empty.
   */
  method GenerateObservabilityBundleConfig(agent: LoggedCluster.LoggingAgent, bundle: Semver.SemVer) returns (values: string, err: Option<Error>)
    modifies agent
    ensures agent.loggingAgent == ControllerUtil.LoggingAgentFor(old(agent.loggingAgent), bundle)
    ensures LogAgentEntries(agent.loggingAgent).None? ==> agent.kubeEventsLogger == old(agent.kubeEventsLogger)
    ensures LogAgentEntries(agent.loggingAgent).Some? ==> agent.kubeEventsLogger == ControllerUtil.EventsLoggerFor(old(agent.kubeEventsLogger), bundle)
    ensures match BundleApps(old(agent.loggingAgent), old(agent.kubeEventsLogger), bundle)
      case Err(e) => values == "" && err == Some(e)
      case Ok(m) =>
        match MarshalApps(m)
          case Err(e) => values == "" && err == Some(e)
          case Ok(v) => values == v && err.None?
  {
    ghost var loggingAgent, eventsLogger := agent.loggingAgent, agent.kubeEventsLogger;
    var appsToEnable := new AppsToEnable();
    err := ToggleLogAgent(agent, bundle, appsToEnable);
    if err.Some? {
      return "", err;
    }
    assert appsToEnable.apps == LogAgentEntries(agent.loggingAgent).value;
    err := ToggleKubeEventsLogger(agent, bundle, appsToEnable);
    if err.Some? {
      return "", err;
    }
    assert appsToEnable.apps == BundleApps(loggingAgent, eventsLogger, bundle).value;
    var v := MarshalApps(appsToEnable.apps);
    if v.Err? {
      return "", Some(v.error);
    }
    values := v.value;
  }
}

/** pkg/resource/logging-agents-toggle: the earlier bundle values for the logging agent. */
module LoggingAgentsToggle {
  import opened Kube
  import Semver
  import Common
  import Clusters
  import ObservabilityBundle
  import opened BundleValues

  /** The promtail app was renamed in bundle 1.0.0. */
  function PromtailAppName(bundle: Semver.SemVer): (r: string)
    ensures Semver.Below(bundle, Semver.Version(1, 0, 0)) ==> r == "promtail-app"
    ensures !Semver.Below(bundle, Semver.Version(1, 0, 0)) ==> r == "promtail"
  {
    if Semver.Below(bundle, Semver.Version(1, 0, 0)) then "promtail-app" else "promtail"
  }

  /** Alloy falls back to promtail below bundle 1.5.0 here (not 1.6.0). */
  function AgentFor(agent: string, bundle: Semver.SemVer): string
  {
    if Semver.Below(bundle, Semver.Version(1, 5, 0)) && agent == Common.LoggingAgentAlloy then Common.LoggingAgentPromtail else agent
  }

  /** The apps written for an agent, already after the fallback; None for an unsupported one. */
  function Apps(agent: string, bundle: Semver.SemVer): Option<map<string, AppToggle>>
  {
    var p := PromtailAppName(bundle);
    var core :=
      if agent == Common.LoggingAgentPromtail then Some(map[p := Enabled][Common.AlloyLogAgentAppName := Disabled])
      else if agent == Common.LoggingAgentAlloy then
        Some(map[Common.AlloyLogAgentAppName := AppToggle(true, Common.AlloyLogAgentAppNamespace)][p := Disabled])
      else None;
    match core
      case None => None
      case Some(m) =>
        if !Semver.Below(bundle, Semver.Version(0, 10, 0)) then Some(m["grafanaAgent" := Enabled]) else Some(m)
  }

  /**
   * An enabled grafana-agent entry is there exactly from bundle 0.10.0 on,
   * and the promtail entry is enabled exactly for promtail.
   */
  lemma AppsShape(agent: string, bundle: Semver.SemVer)
    requires Common.AlloyLogAgentAppName !in {"promtail", "promtail-app", "grafanaAgent"}
    requires Apps(agent, bundle).Some?
    ensures agent == Common.LoggingAgentPromtail || agent == Common.LoggingAgentAlloy
    ensures var m := Apps(agent, bundle).value;
      && ("grafanaAgent" in m <==> !Semver.Below(bundle, Semver.Version(0, 10, 0)))
      && ("grafanaAgent" in m ==> m["grafanaAgent"] == Enabled)
      && PromtailAppName(bundle) in m && Common.AlloyLogAgentAppName in m
      && (m[PromtailAppName(bundle)].enabled <==> agent == Common.LoggingAgentPromtail)
      && (m[Common.AlloyLogAgentAppName].enabled <==> !m[PromtailAppName(bundle)].enabled)
  {
  }

  /**
   * `GenerateObservabilityBundleConfigMap`: the fallback on the cluster, the
   * entries filled one by one, then the config map beside the bundle.
   */
  method GenerateObservabilityBundleConfigMap(lc: Clusters.LoggedCluster, bundle: Semver.SemVer) returns (cm: ConfigMap, err: Option<Error>)
    modifies lc.agent
    ensures lc.agent.loggingAgent == AgentFor(old(lc.agent.loggingAgent), bundle)
    ensures lc.agent.kubeEventsLogger == old(lc.agent.kubeEventsLogger)
    ensures Apps(lc.agent.loggingAgent, bundle).None? ==>
      cm == ConfigMap(EmptyMeta, map[]) && err == Some(Failure("unsupported logging agent \"" + lc.agent.loggingAgent + "\""))
    ensures Apps(lc.agent.loggingAgent, bundle).Some? ==>
      match ValuesConfigMap(ObservabilityBundle.ConfigMapMeta(lc), Apps(lc.agent.loggingAgent, bundle).value)
        case Err(e) => cm == ConfigMap(EmptyMeta, map[]) && err == Some(e)
        case Ok(c) => cm == c && err.None?
  {
    var appsToEnable: map<string, AppToggle> := map[];
    var promtailAppName := "promtail";
    if Semver.Below(bundle, Semver.Version(1, 0, 0)) {
      promtailAppName := "promtail-app";
    }
    if Semver.Below(bundle, Semver.Version(1, 5, 0)) && lc.agent.GetLoggingAgent() == Common.LoggingAgentAlloy {
      lc.agent.SetLoggingAgent(Common.LoggingAgentPromtail);
    }
    var agent := lc.agent.GetLoggingAgent();
    assert promtailAppName == PromtailAppName(bundle);
    if agent == Common.LoggingAgentPromtail {
      appsToEnable := appsToEnable[promtailAppName := Enabled];
      appsToEnable := appsToEnable[Common.AlloyLogAgentAppName := Disabled];
    } else if agent == Common.LoggingAgentAlloy {
      appsToEnable := appsToEnable[Common.AlloyLogAgentAppName := AppToggle(true, Common.AlloyLogAgentAppNamespace)];
      appsToEnable := appsToEnable[promtailAppName := Disabled];
    } else {
      return ConfigMap(EmptyMeta, map[]), Some(Failure("unsupported logging agent \"" + agent + "\""));
    }
    if !Semver.Below(bundle, Semver.Version(0, 10, 0)) {
      appsToEnable := appsToEnable["grafanaAgent" := Enabled];
    }
    assert Apps(agent, bundle) == Some(appsToEnable);
    var v := MarshalApps(appsToEnable);
    if v.Err? {
      return ConfigMap(EmptyMeta, map[]), Some(v.error);
    }
    cm := ConfigMap(ObservabilityBundle.ConfigMapMeta(lc), map["values" := v.value]);
    err := None;
  }
}

/** pkg/resource/grafana-agent-toggle: bundle values that enable grafana-agent. */
module GrafanaAgentToggle {
  import opened Kube
  import Semver
  import Clusters
  import ObservabilityBundle
  import opened BundleValues

  /** Both branches of the version test pick the same app key. */
  function AppName(bundle: Semver.SemVer): (r: string)
    ensures r == "grafanaAgent"
  {
    if Semver.Below(bundle, Semver.Version(1, 0, 0)) then "grafanaAgent" else "grafanaAgent"
  }

  function GenerateObservabilityBundleConfigMap(lc: Clusters.LoggedCluster, bundle: Semver.SemVer): (r: Result<ConfigMap>)
    ensures r == ValuesConfigMap(ObservabilityBundle.ConfigMapMeta(lc), map["grafanaAgent" := Enabled])
  {
    ValuesConfigMap(ObservabilityBundle.ConfigMapMeta(lc), map[AppName(bundle) := Enabled])
  }

  /** The bundle version has no effect on the result. */
  lemma VersionIrrelevant(lc: Clusters.LoggedCluster, v: Semver.SemVer, w: Semver.SemVer)
    ensures GenerateObservabilityBundleConfigMap(lc, v) == GenerateObservabilityBundleConfigMap(lc, w)
  {
  }
}

/** pkg/resource/promtail-toggle: bundle user values that enable promtail on a vintage cluster. */
module PromtailToggle {
  import opened Kube
  import opened BundleValues

  /** "<name>-observability-bundle-user-values" in the namespace named after the object, without labels. */
  function ConfigMapMeta(obj: ObjectMeta): (m: ObjectMeta)
    ensures |obj.name| <= |m.name| && m.name[..|obj.name|] == obj.name
    ensures m.name[|obj.name|..] == "-observability-bundle-user-values"
    ensures m.namespace == obj.name && m.labels == map[]
  {
    ObjectMeta(obj.name + "-observability-bundle-user-values", obj.name, map[])
  }

  /** The values enable exactly "promtail-app". */
  function GenerateObservabilityBundleConfigMap(obj: ObjectMeta): (r: Result<ConfigMap>)
    ensures r.Ok? ==> r.value.meta == ConfigMapMeta(obj) && r.value.data.Keys == {"values"}
    ensures r.Ok? ==> MarshalApps(map["promtail-app" := Enabled]).Ok? && r.value.data["values"] == MarshalApps(map["promtail-app" := Enabled]).value
    ensures r.Err? <==> MarshalApps(map["promtail-app" := Enabled]).Err?
  {
    ValuesConfigMap(ConfigMapMeta(obj), map["promtail-app" := Enabled])
  }
}
