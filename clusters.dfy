/**
 * `loggedcluster.Interface` and its three implementations, as one datatype
 * whose operations dispatch on the flavour. The agent selection is the
 * shared mutable `LoggingAgent` every flavour points to.
 */
module Clusters {
  import opened Kube
  import LC = LoggedCluster
  import CapiCluster
  import VintageWc
  import VintageMc
  import ExtraConfigs

  datatype LoggedCluster =
    | Capi(meta: ObjectMeta, options: LC.Options, agent: LC.LoggingAgent)
    | VintageWc(meta: ObjectMeta, options: LC.Options, agent: LC.LoggingAgent)
    | VintageMc(meta: ObjectMeta, options: LC.Options, agent: LC.LoggingAgent)

  function HasLoggingEnabled(lc: LoggedCluster): bool
  {
    match lc
      case Capi(meta, options, _) => CapiCluster.HasLoggingEnabled(meta, options.enableLoggingFlag)
      case VintageWc(meta, options, _) => VintageWc.HasLoggingEnabled(meta, options)
      case VintageMc(_, options, _) => VintageMc.HasLoggingEnabled(options)
  }

  function AppsNamespace(lc: LoggedCluster): string
  {
    match lc
      case Capi(meta, _, _) => CapiCluster.AppsNamespace(meta)
      case VintageWc(meta, _, _) => VintageWc.AppsNamespace(meta)
      case VintageMc(_, _, _) => VintageMc.AppsNamespace
  }

  function AppConfigName(lc: LoggedCluster, app: string): string
  {
    match lc
      case Capi(meta, _, _) => CapiCluster.AppConfigName(meta, app)
      case VintageWc(meta, _, _) => VintageWc.AppConfigName(meta, app)
      case VintageMc(_, _, _) => VintageMc.AppConfigName(app)
  }

  function ClusterName(lc: LoggedCluster): string
  {
    match lc
      case Capi(meta, _, _) => CapiCluster.ClusterName(meta)
      case VintageWc(meta, _, _) => VintageWc.ClusterName(meta)
      case VintageMc(_, options, _) => VintageMc.ClusterName(options)
  }

  function InstallationName(lc: LoggedCluster): string
  {
    lc.options.installationName
  }

  function Tenant(lc: LoggedCluster): string
  {
    match lc
      case Capi(meta, _, _) => CapiCluster.Tenant(meta)
      case VintageWc(meta, _, _) => VintageWc.Tenant(meta)
      case VintageMc(_, options, _) => VintageMc.Tenant(options)
  }

  /** `common.IsWorkloadCluster`, defined outside this model. */
  const IsWorkloadCluster: LoggedCluster -> bool

  predicate IsCAPI(lc: LoggedCluster)
  {
    lc.Capi?
  }

  predicate IsInsecureCA(lc: LoggedCluster)
  {
    lc.options.insecureCA
  }

  function ObservabilityBundleConfigMap(lc: LoggedCluster): string
  {
    match lc
      case Capi(_, _, _) => CapiCluster.ObservabilityBundleConfigMap
      case VintageWc(_, _, _) => VintageWc.ObservabilityBundleConfigMap
      case VintageMc(_, _, _) => VintageMc.ObservabilityBundleConfigMap
  }

  /** `ObservabilityBundleConfigLabelName`: the identity. */
  function ConfigLabelName(lc: LoggedCluster, config: string): string
  {
    config
  }

  /**
   * Where each flavour's logs go: Cluster API clusters to the default tenant,
   * vintage workload clusters to their own name, management clusters to the
   * installation.
   */
  lemma TenantByFlavour(lc: LoggedCluster)
    ensures lc.Capi? ==> Tenant(lc) == CapiCluster.Tenant(lc.meta)
    ensures !lc.Capi? ==> Tenant(lc) == ClusterName(lc)
    ensures lc.VintageMc? ==> Tenant(lc) == InstallationName(lc)
  {
  }

  method WireLogging(lc: LoggedCluster, current: App) returns (desired: App)
    ensures lc.Capi? ==> desired == current.(extraConfigs := ExtraConfigs.Wired(current.extraConfigs, CapiCluster.WiredExtraConfig(lc.meta)))
    ensures lc.VintageWc? ==> desired == current
    ensures lc.VintageMc? ==> desired == current.(userConfig := VintageMc.WiredUserConfig)
  {
    match lc
    case Capi(meta, _, _) =>
      desired := CapiCluster.WireLogging(meta, current);
    case VintageWc(_, _, _) =>
      desired := VintageWc.WireLogging(current);
    case VintageMc(_, _, _) =>
      desired := VintageMc.WireLogging(current);
  }

  method UnwireLogging(lc: LoggedCluster, current: App) returns (desired: App)
    ensures lc.Capi? ==> desired == current.(extraConfigs := ExtraConfigs.Without(current.extraConfigs, CapiCluster.WiredExtraConfig(lc.meta)))
    ensures lc.VintageWc? ==> desired == current
    ensures lc.VintageMc? && current.userConfig == VintageMc.WiredUserConfig ==> desired == current.(userConfig := ConfigMapRef("", ""))
    ensures lc.VintageMc? && current.userConfig != VintageMc.WiredUserConfig ==> desired == current
  {
    match lc
    case Capi(meta, _, _) =>
      desired := CapiCluster.UnwireLogging(meta, current);
    case VintageWc(_, _, _) =>
      desired := VintageWc.UnwireLogging(current);
    case VintageMc(_, _, _) =>
      desired := VintageMc.UnwireLogging(current);
  }

}

/** The values the operator threads through a Go `context.Context`, one field per context key. */
module GoContext {
  import opened Kube
  import Semver

  datatype Context = Context(bundleVersion: Option<Semver.SemVer>, loggingCredentials: Option<Secret>)

  const Background := Context(None, None)
}

/** pkg/common/observability_bundle.go: bundle metadata and the bundle version in the context. */
module ObservabilityBundle {
  import opened Kube
  import Semver
  import GoContext
  import Clusters
  import CapiCluster
  import VintageMc

  const AppName := "observability-bundle"

  /** The label cluster-operator finds the extra config by. */
  const NameLabel := "app.kubernetes.io/name"

  /** The bundle app: `AppConfigName("observability-bundle")` in the apps namespace, with only the common labels. */
  function AppMeta(lc: Clusters.LoggedCluster): (m: ObjectMeta)
    ensures m.name == Clusters.AppConfigName(lc, AppName)
    ensures m.namespace == Clusters.AppsNamespace(lc)
    ensures m.labels == CommonLabels
  {
    ObjectMeta(Clusters.AppConfigName(lc, AppName), Clusters.AppsNamespace(lc), AddCommonLabels(map[]))
  }

  /**
   * The config map holding the bundle's logging values, beside the app,
   * carrying the name label unless a common label of the same key overrides it.
   */
  function ConfigMapMeta(lc: Clusters.LoggedCluster): (m: ObjectMeta)
    ensures m.name == Clusters.AppConfigName(lc, Clusters.ObservabilityBundleConfigMap(lc))
    ensures m.namespace == Clusters.AppsNamespace(lc)
    ensures m.labels.Keys == {NameLabel} + CommonLabels.Keys
    ensures NameLabel !in CommonLabels ==> m.labels[NameLabel] == AppName
  {
    ObjectMeta(
      Clusters.AppConfigName(lc, Clusters.ObservabilityBundleConfigMap(lc)),
      Clusters.AppsNamespace(lc),
      AddCommonLabels(map[NameLabel := Clusters.ConfigLabelName(lc, AppName)]))
  }

  /** The extra config a Cluster API cluster wires points at this config map. */
  lemma CapiWiredEntryIsConfigMap(lc: Clusters.LoggedCluster)
    requires lc.Capi?
    ensures CapiCluster.WiredExtraConfig(lc.meta).name == ConfigMapMeta(lc).name
    ensures CapiCluster.WiredExtraConfig(lc.meta).namespace == ConfigMapMeta(lc).namespace
  {
  }

  /** The user config a vintage management cluster wires points at this config map. */
  lemma VintageMcUserConfigIsConfigMap(lc: Clusters.LoggedCluster)
    requires lc.VintageMc?
    ensures VintageMc.WiredUserConfig == ConfigMapRef(ConfigMapMeta(lc).name, ConfigMapMeta(lc).namespace)
  {
  }

  /** What `NewObservabilityBundleAppVersionContext` returns: a context or nil, a result, an error or nil. */
  datatype ContextOutcome = ContextOutcome(ctx: Option<GoContext.Context>, result: CtrlResult, err: Option<Error>)

  /**
   * Looks the bundle app up with `get`. A missing app asks for a requeue in
   * five minutes without an error; any other failure, or a version blang
   * cannot parse, is an error; otherwise the parsed version is stored.
   */
  function NewVersionContext(ctx: GoContext.Context, lc: Clusters.LoggedCluster, get: NamespacedName -> Result<App>): (r: ContextOutcome)
    ensures get(KeyOf(AppMeta(lc))) == Err(NotFound) ==> r == ContextOutcome(None, RequeueFiveMinutes, None)
    ensures get(KeyOf(AppMeta(lc))).Err? && get(KeyOf(AppMeta(lc))).error.Failure? ==>
      r == ContextOutcome(None, ZeroResult, Some(get(KeyOf(AppMeta(lc))).error))
    ensures get(KeyOf(AppMeta(lc))).Ok? ==>
      && r.result == ZeroResult
      && (r.ctx.Some? <==> Semver.ParseStrict(get(KeyOf(AppMeta(lc))).value.version).Some?)
      && (r.err.Some? <==> r.ctx.None?)
    ensures r.ctx.Some? ==> r.ctx.value == ctx.(bundleVersion := r.ctx.value.bundleVersion)
  {
    match get(KeyOf(AppMeta(lc)))
      case Err(NotFound) => ContextOutcome(None, RequeueFiveMinutes, None)
      case Err(e) => ContextOutcome(None, ZeroResult, Some(e))
      case Ok(app) =>
        match Semver.ParseStrict(app.version)
          case None => ContextOutcome(None, ZeroResult, Some(Failure("invalid semantic version")))
          case Some(v) => ContextOutcome(Some(ctx.(bundleVersion := Some(v))), ZeroResult, None)
  }

  /** `ObservabilityBundleAppVersionFromContext`: the stored version and true, or the zero version and false. */
  function VersionFromContext(ctx: GoContext.Context): (Semver.SemVer, bool)
  {
    match ctx.bundleVersion
      case None => (Semver.SemVer(Semver.Version(0, 0, 0), ""), false)
      case Some(v) => (v, true)
  }

  /** The version stored from the app's spec is the one read back. */
  lemma VersionRoundTrip(ctx: GoContext.Context, lc: Clusters.LoggedCluster, get: NamespacedName -> Result<App>)
    requires NewVersionContext(ctx, lc, get).ctx.Some?
    ensures get(KeyOf(AppMeta(lc))).Ok?
    ensures VersionFromContext(NewVersionContext(ctx, lc, get).ctx.value)
      == (Semver.ParseStrict(get(KeyOf(AppMeta(lc))).value.version).value, true)
  {
  }

  /** A context that never received the version reports none. */
  lemma NoVersionInBackground()
    ensures !VersionFromContext(GoContext.Background).1
  {
  }
}

/** internal/controller/predicates: the update filter on the observability-bundle app. */
module Predicates {
  import opened Kube

  const BundleLabelValue := "observability-bundle"

  /** The app carries `app.kubernetes.io/name=observability-bundle`. */
  predicate IsBundle(app: App)
  {
    "app.kubernetes.io/name" in app.meta.labels && app.meta.labels["app.kubernetes.io/name"] == BundleLabelValue
  }

  /** A missing label reads as "", as a Go map lookup does. */
  function NameLabel(app: App): string
  {
    if "app.kubernetes.io/name" in app.meta.labels then app.meta.labels["app.kubernetes.io/name"] else ""
  }

  /**
   * `ObservabilityBundleAppVersionChangedPredicate.Update`: fires exactly for
   * a new resource version of an app that is the bundle before and after.
   */
  function Update(oldObject: Option<App>, newObject: Option<App>): (r: bool)
    ensures r <==>
      && oldObject.Some? && newObject.Some?
      && IsBundle(oldObject.value) && IsBundle(newObject.value)
      && newObject.value.resourceVersion != oldObject.value.resourceVersion
  {
    if oldObject.None? then false
    else if newObject.None? then false
    else if |oldObject.value.meta.labels| == 0 || |newObject.value.meta.labels| == 0
      || NameLabel(oldObject.value) != BundleLabelValue
      || NameLabel(newObject.value) != BundleLabelValue then false
    else newObject.value.resourceVersion != oldObject.value.resourceVersion
  }
}

/** internal/controller/controller_util.go: agent fallbacks for bundles too old for alloy. */
module ControllerUtil {
  import opened Kube
  import Semver
  import Common
  import LoggedCluster

  /** The first bundle release that ships alloy as a logging agent. */
  const SupportAlloyLogs := Semver.Version(1, 6, 0)
  /** The first bundle release that ships alloy as an events logger. */
  const SupportAlloyEvents := Semver.Version(1, 9, 0)

  /** Alloy falls back to promtail below 1.6.0; every other case keeps the agent. */
  function LoggingAgentFor(agent: string, bundle: Semver.SemVer): (r: string)
    ensures agent != Common.LoggingAgentAlloy ==> r == agent
    ensures !Semver.Below(bundle, SupportAlloyLogs) ==> r == agent
    ensures agent == Common.LoggingAgentAlloy && Semver.Below(bundle, SupportAlloyLogs) ==> r == Common.LoggingAgentPromtail
  {
    if Semver.Below(bundle, SupportAlloyLogs) && agent == Common.LoggingAgentAlloy then Common.LoggingAgentPromtail else agent
  }

  /** Alloy falls back to grafana-agent below 1.9.0; every other case keeps the logger. */
  function EventsLoggerFor(logger: string, bundle: Semver.SemVer): (r: string)
    ensures logger != Common.EventsLoggerAlloy ==> r == logger
    ensures !Semver.Below(bundle, SupportAlloyEvents) ==> r == logger
    ensures logger == Common.EventsLoggerAlloy && Semver.Below(bundle, SupportAlloyEvents) ==> r == Common.EventsLoggerGrafanaAgent
  {
    if Semver.Below(bundle, SupportAlloyEvents) && logger == Common.EventsLoggerAlloy then Common.EventsLoggerGrafanaAgent else logger
  }

  /** Applying the fallbacks a second time changes nothing. */
  lemma FallbacksIdempotent(agent: string, logger: string, bundle: Semver.SemVer)
    ensures LoggingAgentFor(LoggingAgentFor(agent, bundle), bundle) == LoggingAgentFor(agent, bundle)
    ensures EventsLoggerFor(EventsLoggerFor(logger, bundle), bundle) == EventsLoggerFor(logger, bundle)
  {
  }

  /**
   * `toggleAgents`: with the bundle version fetched (or the error fetching
   * it), rewrite the cluster's agent selection to what the bundle supports.
   */
  method ToggleAgents(agent: LoggedCluster.LoggingAgent, fetched: Result<Semver.SemVer>) returns (err: Option<Error>)
    modifies agent
    ensures fetched.Err? ==>
      && err == Some(fetched.error)
      && agent.loggingAgent == old(agent.loggingAgent) && agent.kubeEventsLogger == old(agent.kubeEventsLogger)
    ensures fetched.Ok? ==>
      && err.None?
      && agent.loggingAgent == LoggingAgentFor(old(agent.loggingAgent), fetched.value)
      && agent.kubeEventsLogger == EventsLoggerFor(old(agent.kubeEventsLogger), fetched.value)
  {
    if fetched.Err? {
      return Some(fetched.error);
    }
    var version := fetched.value;
    if Semver.Below(version, SupportAlloyLogs) && agent.GetLoggingAgent() == Common.LoggingAgentAlloy {
      agent.SetLoggingAgent(Common.LoggingAgentPromtail);
    }
    if Semver.Below(version, SupportAlloyEvents) && agent.GetKubeEventsLogger() == Common.EventsLoggerAlloy {
      agent.SetKubeEventsLogger(Common.EventsLoggerGrafanaAgent);
    }
    err := None;
  }
}
