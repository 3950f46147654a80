/**
 * pkg/logged-cluster/vintagewc: a vintage workload cluster. Logging needs
 * release 19.1.0 or later; the bundle app lives in the namespace named after
 * the cluster; cluster-operator wires the config itself.
 */
module VintageWc {
  import opened Kube
  import opened Strings
  import Key
  import Semver
  import LoggedCluster
  import CapiCluster

  /** The label carrying the cluster's release. */
  const ReleaseLabel := "release.giantswarm.io/version"

  /** The release label, read as Go reads a map: "" when absent. */
  function ClusterRelease(labels: Labels): string
  {
    if ReleaseLabel in labels then labels[ReleaseLabel] else ""
  }

  /**
   * Off when the installation flag is off or the release is below 19.1.0 (a
   * missing or unparsable release included); otherwise the logging label
   * decides exactly as on a Cluster API cluster: as a Go bool, with
   * `LoggingEnabledDefault` when it is absent or not a bool.
   */
  function HasLoggingEnabled(meta: ObjectMeta, options: LoggedCluster.Options): (r: bool)
    ensures !options.enableLoggingFlag ==> !r
    ensures Semver.ReleaseBelow19_1_0(ClusterRelease(meta.labels)) ==> !r
    ensures options.enableLoggingFlag && !Semver.ReleaseBelow19_1_0(ClusterRelease(meta.labels)) ==>
      r == CapiCluster.HasLoggingEnabled(meta, true)
  {
    if !options.enableLoggingFlag then false
    else if Semver.ReleaseBelow19_1_0(ClusterRelease(meta.labels)) then false
    else if Key.LoggingLabel !in meta.labels then LoggedCluster.LoggingEnabledDefault
    else match ParseBool(meta.labels[Key.LoggingLabel])
      case None => LoggedCluster.LoggingEnabledDefault
      case Some(b) => b
  }

  /** A cluster without a release label never has logging. */
  lemma NoReleaseNoLogging(meta: ObjectMeta, options: LoggedCluster.Options)
    requires ReleaseLabel !in meta.labels
    ensures !HasLoggingEnabled(meta, options)
  {
    Semver.MissingReleaseIsBelow();
  }

  /** Apps of a vintage workload cluster live in the namespace named after it. */
  function AppsNamespace(meta: ObjectMeta): string
  {
    meta.name
  }

  /** Only the bundle app itself is prefixed with the cluster name; every other config keeps its name. */
  function AppConfigName(meta: ObjectMeta, app: string): (r: string)
    ensures app != "observability-bundle" ==> r == app
    ensures app == "observability-bundle" ==>
      |r| == |meta.name| + 1 + |app| && r[..|meta.name|] == meta.name
      && r[|meta.name|] == '-' && r[|meta.name| + 1..] == app
  {
    if app == "observability-bundle" then meta.name + "-" + app else app
  }

  function ClusterName(meta: ObjectMeta): string
  {
    meta.name
  }

  /** A vintage workload cluster writes to the tenant named after the cluster. */
  function Tenant(meta: ObjectMeta): (r: string)
    ensures r == ClusterName(meta)
  {
    ClusterName(meta)
  }

  /** On vintage workload clusters the bundle reads its logging settings from an extra config. */
  const ObservabilityBundleConfigMap := "observability-bundle-logging-extraconfig"

  /** cluster-operator does the wiring: the desired app is an unchanged copy. */
  method WireLogging(current: App) returns (desired: App)
    ensures desired == current
  {
    desired := current;
  }

  /** cluster-operator does the unwiring: the desired app is an unchanged copy. */
  method UnwireLogging(current: App) returns (desired: App)
    ensures desired == current
  {
    desired := current;
  }
}

/** pkg/vintagewc: the earlier vintage workload-cluster flavour that wires promtail. */
module LegacyVintageWc {
  import opened Kube
  import opened Strings
  import Key
  import Semver
  import LoggedCluster
  import VintageWc

  /** As the current flavour, except that an absent or unreadable logging label disables logging. */
  function HasLoggingEnabled(meta: ObjectMeta, options: LoggedCluster.Options): (r: bool)
    ensures r <==>
      options.enableLoggingFlag
      && !Semver.ReleaseBelow19_1_0(VintageWc.ClusterRelease(meta.labels))
      && Key.LoggingLabel in meta.labels
      && meta.labels[Key.LoggingLabel] in TrueSpellings
  {
    if !options.enableLoggingFlag then false
    else if Semver.ReleaseBelow19_1_0(VintageWc.ClusterRelease(meta.labels)) then false
    else if Key.LoggingLabel !in meta.labels then false
    else match ParseBool(meta.labels[Key.LoggingLabel])
      case None => false
      case Some(b) => b
  }

  /**
   * The earlier flavour only ever enables logging where the current one does,
   * and the two agree whenever `LoggingEnabledDefault` is false.
   */
  lemma CurrentFlavourExtendsLegacy(meta: ObjectMeta, options: LoggedCluster.Options)
    ensures HasLoggingEnabled(meta, options) ==> VintageWc.HasLoggingEnabled(meta, options)
    ensures !LoggedCluster.LoggingEnabledDefault ==>
      HasLoggingEnabled(meta, options) == VintageWc.HasLoggingEnabled(meta, options)
  {
  }

  method WirePromtail(current: App) returns (desired: App)
    ensures desired == current
  {
    desired := current;
  }

  method UnwirePromtail(current: App) returns (desired: App)
    ensures desired == current
  {
    desired := current;
  }
}

/**
 * pkg/logged-cluster/vintagemc: a vintage management cluster. Logging follows
 * the installation flag alone, apps live in "giantswarm", and the bundle
 * takes the logging settings as its user-values config map.
 */
module VintageMc {
  import opened Kube
  import LoggedCluster

  function HasLoggingEnabled(options: LoggedCluster.Options): (r: bool)
    ensures r <==> options.enableLoggingFlag
  {
    options.enableLoggingFlag
  }

  const AppsNamespace := "giantswarm"

  /** Config names are used as they are. */
  function AppConfigName(app: string): (r: string)
    ensures r == app
  {
    app
  }

  /** A management cluster is named, and logs as a tenant, after its installation. */
  function ClusterName(options: LoggedCluster.Options): (r: string)
    ensures r == options.installationName
  {
    options.installationName
  }

  function Tenant(options: LoggedCluster.Options): (r: string)
    ensures r == ClusterName(options)
  {
    ClusterName(options)
  }

  /** Vintage management clusters have no extra configs: the user-values config map carries the settings. */
  const ObservabilityBundleConfigMap := "observability-bundle-user-values"

  /** Where the bundle's user config must point once logging is wired. */
  const WiredUserConfig := ConfigMapRef(AppConfigName(ObservabilityBundleConfigMap), AppsNamespace)

  /** Points the copy's user config at the logging values unless it already does. */
  method WireLogging(current: App) returns (desired: App)
    ensures desired.userConfig == WiredUserConfig
    ensures desired == current.(userConfig := desired.userConfig)
    ensures current.userConfig == WiredUserConfig ==> desired == current
  {
    desired := current;
    if desired.userConfig.name != WiredUserConfig.name || desired.userConfig.namespace != WiredUserConfig.namespace {
      desired := desired.(userConfig := ConfigMapRef(WiredUserConfig.name, WiredUserConfig.namespace));
    }
  }

  /** The unwiring as written: a match on the name OR on the namespace clears the user config. */
  method UnwireLoggingAsWritten(current: App) returns (desired: App)
    ensures current.userConfig.name == WiredUserConfig.name || current.userConfig.namespace == WiredUserConfig.namespace ==>
      desired == current.(userConfig := ConfigMapRef("", ""))
    ensures !(current.userConfig.name == WiredUserConfig.name || current.userConfig.namespace == WiredUserConfig.namespace) ==>
      desired == current
  {
    desired := current;
    if desired.userConfig.name == WiredUserConfig.name || desired.userConfig.namespace == WiredUserConfig.namespace {
      desired := desired.(userConfig := ConfigMapRef("", ""));
    }
  }

  /** The unwiring as intended: only a user config pointing at the logging values is cleared. */
  method UnwireLogging(current: App) returns (desired: App)
    ensures current.userConfig == WiredUserConfig ==> desired == current.(userConfig := ConfigMapRef("", ""))
    ensures current.userConfig != WiredUserConfig ==> desired == current
  {
    desired := current;
    if desired.userConfig.name == WiredUserConfig.name && desired.userConfig.namespace == WiredUserConfig.namespace {
      desired := desired.(userConfig := ConfigMapRef("", ""));
    }
  }

  /**
   * A user's own values config map in "giantswarm" is not the logging one,
   * yet the unwiring as written clears it; the intended unwiring keeps it.
   */
  method ForeignUserConfigIsCleared() returns (asWritten: App, intended: App)
    ensures asWritten.userConfig == ConfigMapRef("", "")
    ensures intended.userConfig == ConfigMapRef("my-values", "giantswarm")
  {
    var app := App(EmptyMeta, "", "", ConfigMapRef("my-values", "giantswarm"), []);
    asWritten := UnwireLoggingAsWritten(app);
    intended := UnwireLogging(app);
  }
}
