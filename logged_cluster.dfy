/**
 * pkg/logged-cluster: the options every logged cluster carries and the
 * mutable agent selection (`LoggingAgent`) the flavours embed by pointer.
 */
module LoggedCluster {

  /** `loggedcluster.LoggingEnabledDefault`; its value is defined outside this model. */
  const LoggingEnabledDefault: bool

  /** `loggedcluster.Options`. */
  datatype Options = Options(
    enableLoggingFlag: bool,
    defaultLoggingAgent: string,
    defaultKubeEventsLogger: string,
    installationName: string,
    insecureCA: bool)

  /** The logging agent and the Kubernetes-events logger chosen for one cluster. */
  class LoggingAgent {
    var loggingAgent: string
    var kubeEventsLogger: string

    constructor (loggingAgent: string, kubeEventsLogger: string)
      ensures this.loggingAgent == loggingAgent && this.kubeEventsLogger == kubeEventsLogger
    {
      this.loggingAgent := loggingAgent;
      this.kubeEventsLogger := kubeEventsLogger;
    }

    function GetLoggingAgent(): string
      reads this
    {
      loggingAgent
    }

    function GetKubeEventsLogger(): string
      reads this
    {
      kubeEventsLogger
    }

    /** Overwrites the logging agent; the events logger is left as it was. */
    method SetLoggingAgent(agent: string)
      modifies this
      ensures GetLoggingAgent() == agent
      ensures GetKubeEventsLogger() == old(GetKubeEventsLogger())
    {
      loggingAgent := agent;
    }

    /** Overwrites the events logger; the logging agent is left as it was. */
    method SetKubeEventsLogger(logger: string)
      modifies this
      ensures GetKubeEventsLogger() == logger
      ensures GetLoggingAgent() == old(GetLoggingAgent())
    {
      kubeEventsLogger := logger;
    }
  }
}

/** pkg/logged-cluster/capicluster: a Cluster API workload cluster. */
module CapiCluster {
  import opened Kube
  import opened Strings
  import Key
  import Common
  import LoggedCluster
  import ExtraConfigs

  /**
   * Logging is off when the installation flag is off; otherwise the logging
   * label decides as a Go bool, and `LoggingEnabledDefault` stands in when the
   * label is absent or is not a bool.
   */
  function HasLoggingEnabled(o: ObjectMeta, enableLoggingFlag: bool): (r: bool)
    ensures !enableLoggingFlag ==> !r
    ensures enableLoggingFlag && Key.LoggingLabel !in o.labels ==> r == LoggedCluster.LoggingEnabledDefault
    ensures enableLoggingFlag && Key.LoggingLabel in o.labels ==>
      var v := o.labels[Key.LoggingLabel];
      (v in TrueSpellings ==> r)
      && (v in FalseSpellings ==> !r)
      && (v !in TrueSpellings && v !in FalseSpellings ==> r == LoggedCluster.LoggingEnabledDefault)
  {
    if !enableLoggingFlag then false
    else if Key.LoggingLabel !in o.labels then LoggedCluster.LoggingEnabledDefault
    else match ParseBool(o.labels[Key.LoggingLabel])
      case None => LoggedCluster.LoggingEnabledDefault
      case Some(b) => b
  }

  /** Apps of a Cluster API cluster live in the cluster's namespace. */
  function AppsNamespace(o: ObjectMeta): string
  {
    o.namespace
  }

  function AppConfigName(o: ObjectMeta, app: string): string
  {
    o.name + "-" + app
  }

  /** Config names are the cluster name, a dash, and the app: distinct apps get distinct names. */
  lemma AppConfigNameParts(o: ObjectMeta, app: string, other: string)
    ensures AppConfigName(o, app)[..|o.name| + 1] == o.name + "-"
    ensures AppConfigName(o, app)[|o.name| + 1..] == app
    ensures AppConfigName(o, app) == AppConfigName(o, other) ==> app == other
  {
    var p := o.name + "-";
    assert AppConfigName(o, app) == p + app;
    assert AppConfigName(o, other) == p + other;
    assert (p + app)[|p|..] == app;
    assert (p + other)[|p|..] == other;
  }

  function ClusterName(o: ObjectMeta): string
  {
    o.name
  }

  /** Every Cluster API cluster writes to the default tenant. */
  function Tenant(o: ObjectMeta): string
  {
    Common.DefaultWriteTenant
  }

  /** On Cluster API clusters the bundle reads its logging settings from an extra config. */
  const ObservabilityBundleConfigMap := "observability-bundle-logging-extraconfig"

  /**
   * The entry to wire: a config map at priority 25, named and placed as the
   * observability-bundle config map of this cluster.
   */
  function WiredExtraConfig(o: ObjectMeta): (e: ExtraConfig)
    ensures e.kind == "configMap" && e.priority == 25
    ensures e.name == AppConfigName(o, ObservabilityBundleConfigMap)
    ensures e.namespace == o.namespace
  {
    ExtraConfigs.WiredEntry(AppConfigName(o, ObservabilityBundleConfigMap), AppsNamespace(o))
  }

  /** Adds this cluster's entry to a copy of the app, once. */
  method WireLogging(o: ObjectMeta, current: App) returns (desired: App)
    ensures desired == current.(extraConfigs := ExtraConfigs.Wired(current.extraConfigs, WiredExtraConfig(o)))
  {
    desired := ExtraConfigs.Wire(current, WiredExtraConfig(o));
  }

  /** Takes this cluster's entry out of a copy of the app. */
  method UnwireLogging(o: ObjectMeta, current: App) returns (desired: App)
    ensures desired == current.(extraConfigs := ExtraConfigs.Without(current.extraConfigs, WiredExtraConfig(o)))
  {
    desired := ExtraConfigs.Unwire(current, WiredExtraConfig(o));
  }
}

/** pkg/capicluster: the earlier Cluster API flavour that wires promtail. */
module LegacyCapiCluster {
  import opened Kube
  import opened Strings
  import Key
  import LoggedCluster
  import ExtraConfigs
  import CapiCluster

  /**
   * The installation flag first; then an absent label enables logging, an
   * unreadable one disables it, and a Go bool label decides.
   */
  function HasLoggingEnabled(o: ObjectMeta, options: LoggedCluster.Options): (r: bool)
    ensures !options.enableLoggingFlag ==> !r
    ensures options.enableLoggingFlag && Key.LoggingLabel !in o.labels ==> r
    ensures r ==> (options.enableLoggingFlag
      && (Key.LoggingLabel in o.labels ==> o.labels[Key.LoggingLabel] in TrueSpellings))
  {
    if !options.enableLoggingFlag then false
    else if Key.LoggingLabel !in o.labels then true
    else match ParseBool(o.labels[Key.LoggingLabel])
      case None => false
      case Some(b) => b
  }

  /**
   * The two Cluster API flavours agree whenever the label is a Go bool; they
   * differ only where one falls back to `LoggingEnabledDefault`.
   */
  lemma AgreesWithCapiClusterOnBoolLabels(o: ObjectMeta, options: LoggedCluster.Options)
    requires Key.LoggingLabel in o.labels
    requires o.labels[Key.LoggingLabel] in TrueSpellings + FalseSpellings
    ensures HasLoggingEnabled(o, options) == CapiCluster.HasLoggingEnabled(o, options.enableLoggingFlag)
  {
  }

  /** Same extra-config entry as the current Cluster API flavour, added once to a copy. */
  method WirePromtail(o: ObjectMeta, current: App) returns (desired: App)
    ensures desired == current.(extraConfigs := ExtraConfigs.Wired(current.extraConfigs, CapiCluster.WiredExtraConfig(o)))
  {
    desired := ExtraConfigs.Wire(current, CapiCluster.WiredExtraConfig(o));
  }

  method UnwirePromtail(o: ObjectMeta, current: App) returns (desired: App)
    ensures desired == current.(extraConfigs := ExtraConfigs.Without(current.extraConfigs, CapiCluster.WiredExtraConfig(o)))
  {
    desired := ExtraConfigs.Unwire(current, CapiCluster.WiredExtraConfig(o));
  }
}
