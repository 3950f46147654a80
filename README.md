# logging-operator, modelled in Dafny

The giantswarm logging-operator is a Kubernetes operator. It turns logging
on and off for the clusters of an installation:

- Cluster API workload clusters, vintage workload clusters and the vintage
  management cluster.
- For each cluster it decides whether logging is enabled. It then picks the
  logging agent and events logger the observability bundle supports.
- It wires the logging configuration into the bundle app and maintains the
  credentials tables.
- It generates the per-cluster config maps and secrets: logging, events
  logger, tracing, proxy and ingress auth, and the Grafana datasource.
- It keeps the Loki IAM role in AWS and installs the PodLogs objects that
  select the pods to scrape.
- Each pass adds the operator's finalizer, runs the ordered sub-reconcilers,
  and on teardown removes the finalizer last.

The Go sources are modelled file by file, one Dafny module per package.

Pure code becomes functions over datatypes. Among them are the label and
release gates, object names and metadata, builder dispatch, IAM policy
templates and the PodLogs selectors.

Code that changes state step by step becomes methods with loops and
invariants. Each method is proved against a reference function:

- The extra-config splice loops and the credentials tables.
- The user lists of the auth builders, the tenant de-duplication and the
  password generator's rune array.
- Objects that change in place become classes: the agent selection, the
  bundle's `appsToEnable` map, the Kubernetes client store, the IAM service,
  the reconcilers with their call logs, and the comma-separated flag.

The shared vocabulary sits in `kube.dfy`, `strings.dfy` and `semver.dfy`:

- Kubernetes object metadata, config maps and secrets.
- The App custom resource and `ctrl.Result`.
- The error kinds the operator tells apart.
- Go's `strings.Split`, `Join`, `ReplaceAll`, `TrimSuffix` and
  `strconv.ParseBool`.
- Both semantic-version parsers the operator uses.

Externals are module constants declared without a value, so every property
holds for any definition they may have. These are:

- YAML encoding and decoding, bcrypt and the template renderers.
- `AddCommonLabels`' label set and the constants of `pkg/key`.
- `LoggingEnabledDefault`, the agent names and `common.IsWorkloadCluster`.
- `loggingcredentials.GetPass` and `GetLogin`.

Other external inputs become parameters:

- Randomness is the parameter `draw`, one result per call of
  `rand.Int(rand.Reader, 62)`.
- Go map iteration order is an `order` sequence that enumerates the map's
  keys without repeats. Properties of a list built from a map hold for every
  such order.
- The Kubernetes API server is the `Client.Store` class and AWS IAM is the
  `Iam.IamClient` class. In both, which calls fail is part of the state, so
  every error path is reachable.

Shared code is modelled once:

- `generatePassword` (pkg/resource/credentials) and `genPassword`
  (pkg/resource/logging-credentials) are `Passwords.Generate`.
- `RemoveLoggingCredentials` is `Credentials.CredentialsSecret.RemoveCredentials`.
- The logging-credentials `GetPassword` is `Credentials.GetPassword`.
- `CapiClusterReconciler`'s create and delete paths are the same code as
  `LoggingReconciler`'s and are `Orchestration.LoggingReconciler`.

The Go code governs where the repository's description says otherwise. Two
places where the code does not do what its authors evidently meant are listed
under "## Findings". The model uses the intended behaviour and proves it, and
keeps the code as written beside it with the input that shows the difference.

## Model

| member | source | states |
|---|---|---|
| Common.OnlyLoggingLabelMatters | pkg/common/common.go:3-7 | only the `giantswarm.io/logging` label decides whether logging is enabled |
| Common.OnlyExactTrueEnables | pkg/common/common.go:3-7 | logging is enabled exactly when the label is present with the exact value "true"; an absent label disables it |
| ClusterHelpers.LoggingLabelDecides | pkg/resource/cluster-helpers/cluster_helpers.go:8-14 | on a Cluster API cluster, only the logging label decides, and only the exact value "true" enables logging |
| Semver.CompareToRelease | pkg/logged-cluster/vintagewc/cluster.go:28-33 | `semver.Compare` against a release: the result is -1, 0 or 1; an invalid version gives -1; a valid one gives -1 exactly when it sorts below the release (a smaller triple, or a pre-release of it), 0 exactly when it equals the release, and 1 exactly when its triple is larger |
| Semver.ReleaseGate | pkg/logged-cluster/vintagewc/cluster.go:28-33 | for every release label: the gate fails exactly when the label does not parse or sorts below 19.1.0, and passes exactly when it parses to 19.1.0 itself or a larger triple |
| Semver.MissingReleaseIsBelow | pkg/logged-cluster/vintagewc/cluster.go:28-33 | a cluster with no release label ("v" after the prefix) counts as older than 19.1.0 |
| Semver.ReleaseAtThresholdIsNotBelow | pkg/logged-cluster/vintagewc/cluster.go:28-33 | release 19.1.0 itself passes the release gate |
| VintageWc.HasLoggingEnabled | pkg/logged-cluster/vintagewc/cluster.go:20-45 | the installation flag and the release gate both have to pass; then an absent or unparsable logging label gives the default, and otherwise its boolean value decides |
| VintageWc.NoReleaseNoLogging | pkg/logged-cluster/vintagewc/cluster.go:20-33 | a vintage workload cluster without a release label never has logging enabled |
| VintageWc.AppConfigName | pkg/logged-cluster/vintagewc/cluster.go:71-77 | only "observability-bundle" is prefixed with the cluster name and a dash; every other name is kept |
| VintageWc.Tenant | pkg/logged-cluster/vintagewc/cluster.go:99-101 | the tenant is the cluster name |
| VintageWc.WireLogging | pkg/logged-cluster/vintagewc/cluster.go:117-120 | wiring returns an unchanged copy of the app |
| VintageWc.UnwireLogging | pkg/logged-cluster/vintagewc/cluster.go:112-115 | unwiring returns an unchanged copy of the app |
| LegacyVintageWc.HasLoggingEnabled | pkg/vintagewc/cluster.go:20-47 | enabled exactly when the flag is set, the release is at least 19.1.0, and the logging label is one of the spellings `strconv.ParseBool` reads as true |
| LegacyVintageWc.CurrentFlavourExtendsLegacy | pkg/vintagewc/cluster.go:36-46 | whatever the legacy flavour enables, the current one enables too; with a false default the two agree |
| LegacyVintageWc.WirePromtail | pkg/vintagewc/cluster.go:91-94 | wiring returns an unchanged copy |
| LegacyVintageWc.UnwirePromtail | pkg/vintagewc/cluster.go:86-89 | unwiring returns an unchanged copy |
| VintageMc.HasLoggingEnabled | pkg/logged-cluster/vintagemc/cluster.go:17-19 | logging is enabled exactly when the installation flag is set |
| VintageMc.AppConfigName | pkg/logged-cluster/vintagemc/cluster.go:29-31 | config names are kept as they are |
| VintageMc.ClusterName | pkg/logged-cluster/vintagemc/cluster.go:33-36 | a management cluster is named after its installation |
| VintageMc.Tenant | pkg/logged-cluster/vintagemc/cluster.go:50-52 | the tenant is the installation name |
| VintageMc.WireLogging | pkg/logged-cluster/vintagemc/cluster.go:77-89 | the copy's user config points at the bundle's user-values config map; nothing else changes, and an app already pointing there is returned unchanged |
| VintageMc.UnwireLoggingAsWritten | pkg/logged-cluster/vintagemc/cluster.go:63-75 | as written: a user config matching the values config map by name OR by namespace is cleared |
| VintageMc.ForeignUserConfigIsCleared | pkg/logged-cluster/vintagemc/cluster.go:68-72 | a user config of another name in the same namespace is cleared by the code as written and kept by the intended unwiring |
| VintageMc.UnwireLogging | pkg/logged-cluster/vintagemc/cluster.go:63-75 | intended behaviour: only a user config pointing at the values config map is cleared; any other app is returned unchanged |
| LoggedCluster.LoggingAgent.SetLoggingAgent | pkg/logged-cluster/agent.go:12-14 | the logging agent is overwritten and the events logger is kept |
| LoggedCluster.LoggingAgent.SetKubeEventsLogger | pkg/logged-cluster/agent.go:20-22 | the events logger is overwritten and the logging agent is kept |
| CapiCluster.HasLoggingEnabled | pkg/logged-cluster/capicluster/cluster.go:21-39 | disabled when the installation flag is off; an absent or unparsable label gives `LoggingEnabledDefault`; a Go boolean label decides |
| CapiCluster.AppConfigNameParts | pkg/logged-cluster/capicluster/cluster.go:45-47 | config names are "<cluster>-<app>", so different apps get different names |
| CapiCluster.WiredExtraConfig | pkg/logged-cluster/capicluster/cluster.go:66-74 | the wired entry is a "configMap" extra config of priority 25 that names the cluster's bundle logging config map in the cluster's namespace |
| CapiCluster.WireLogging | pkg/logged-cluster/capicluster/cluster.go:90-108 | the copy's extra configs are the reference wiring of the entry (appended once); everything else is kept |
| CapiCluster.UnwireLogging | pkg/logged-cluster/capicluster/cluster.go:76-88 | the copy's extra configs lose every copy of the entry (the intended unwiring; see Findings) |
| LegacyCapiCluster.HasLoggingEnabled | pkg/capicluster/cluster.go:21-39 | disabled when the flag is off; an absent label enables; logging is on only when the label is one of Go's true spellings |
| LegacyCapiCluster.AgreesWithCapiClusterOnBoolLabels | pkg/capicluster/cluster.go:29-38 | where the label is a Go boolean, the legacy and current Cluster API flavours decide alike |
| LegacyCapiCluster.WirePromtail | pkg/capicluster/cluster.go:106-124 | the same entry as the current flavour, appended once to a copy |
| LegacyCapiCluster.UnwirePromtail | pkg/capicluster/cluster.go:92-104 | every copy of the entry is taken out of a copy (intended unwiring) |
| ExtraConfigs.WiredEntry | pkg/resource/logging-wiring/reconciler.go:99-107 | the wired entry is a "configMap" extra config of priority 25 with the given name and namespace |
| ExtraConfigs.WiredAddsOnce | pkg/resource/logging-wiring/reconciler.go:123-141 | after wiring, the entry is present; if it was absent it appears exactly once after the untouched old list; if present, the list is unchanged |
| ExtraConfigs.WiredIdempotent | pkg/resource/logging-wiring/reconciler.go:123-141 | wiring twice is the same as wiring once |
| ExtraConfigs.WithoutRemovesAll | pkg/resource/logging-wiring/reconciler.go:109-121 | unwiring leaves no copy of the entry and keeps every other entry with its multiplicity |
| ExtraConfigs.RemovesSingle | pkg/resource/logging-wiring/reconciler.go:114-118 | a single matching entry is cut out and the entries before and after it stay in order |
| ExtraConfigs.UnwireAfterWire | pkg/resource/logging-wiring/reconciler.go:109-141 | unwiring undoes wiring for a list that did not hold the entry |
| ExtraConfigs.Wire | pkg/resource/logging-wiring/reconciler.go:123-141 | the found-flag loop followed by the conditional append gives the reference wiring; the rest of the app is kept |
| ExtraConfigs.Unwire | pkg/resource/logging-wiring/reconciler.go:109-121 | the loop, with the splice done on the copy, gives the reference unwiring; the rest of the app is kept |
| ExtraConfigs.UnwireAsWrittenKeepsDuplicate | pkg/resource/logging-wiring/reconciler.go:114-118 | as written, every splice restarts from the original list, so a list holding the entry twice in a row keeps one copy, while the intended unwiring removes both |
| ExtraConfigs.UnwireAsWrittenAgreesWhenUnique | pkg/resource/logging-wiring/reconciler.go:109-121 | when the entry occurs at most once, the code as written and the intended unwiring agree |
| LoggingWiring.WiredExtraConfig | pkg/resource/logging-wiring/reconciler.go:99-107 | the entry names the bundle's logging config map with kind "configMap" and priority 25; on Cluster API clusters it is the flavour's own entry |
| LoggingWiring.WiredChangesIffMissing | pkg/resource/logging-wiring/reconciler.go:50-51 | the wiring changes the app exactly when the entry is missing, so an update is issued exactly then |
| LoggingWiring.UnwiredChangesIffPresent | pkg/resource/logging-wiring/reconciler.go:84-85 | the unwiring changes the app exactly when the entry is present |
| LoggingWiring.ReconcileCreate | pkg/resource/logging-wiring/reconciler.go:31-63 | a missing app gives a five-minute requeue with no error; another read error is returned; an app lacking the entry is updated with it, and an update error is returned; an app that has it is not written |
| LoggingWiring.ReconcileDelete | pkg/resource/logging-wiring/reconciler.go:67-97 | a missing app is a successful no-op; another read error is returned; an app holding the entry is updated without it; otherwise nothing is written |
| PromtailWiring.AppMeta | pkg/resource/promtail-wiring/observability_bundle_app.go:11-16 | the bundle app is "<name>-observability-bundle" in the namespace named after the object, with no labels |
| PromtailWiring.AppMetaOnlyByName | pkg/resource/promtail-wiring/observability_bundle_app.go:11-16 | only the object's name decides the app's metadata |
| PromtailWiring.Target | pkg/resource/promtail-wiring/reconciler.go:98 | the user config points at promtail-toggle's values config map |
| PromtailWiring.SetUserConfig | pkg/resource/promtail-wiring/reconciler.go:97-105 | the user config is set to the target and nothing else changes; the changed flag is true exactly when the old user config differed |
| PromtailWiring.UnsetUserConfig | pkg/resource/promtail-wiring/reconciler.go:109-117 | the user config is always cleared; the changed flag is true when the old name OR namespace matched the target, as written |
| PromtailWiring.ReconcileCreate | pkg/resource/promtail-wiring/reconciler.go:30-58 | every read error, not-found included, is returned; the app is written only when `setUserConfig` reports a change; the result is always zero |
| PromtailWiring.ReconcileDelete | pkg/resource/promtail-wiring/reconciler.go:62-93 | a missing app is a successful no-op; otherwise the cleared app is written when `unsetUserConfig` reports a change |
| Clusters.TenantByFlavour | pkg/logged-cluster/capicluster/cluster.go:57-59 | a Cluster API cluster writes to the default tenant, vintage clusters to their cluster name, which on a management cluster is the installation name |
| Clusters.WireLogging | pkg/logged-cluster/capicluster/cluster.go:90-108 | wiring by flavour: Cluster API appends the extra-config entry once, vintage workload clusters keep the app, vintage management clusters point the user config at the values config map |
| Clusters.UnwireLogging | pkg/logged-cluster/capicluster/cluster.go:76-88 | unwiring by flavour: Cluster API drops the entry, vintage workload clusters keep the app, vintage management clusters clear a user config that points at the values config map |
| ObservabilityBundle.AppMeta | pkg/common/observability_bundle.go:23-32 | the bundle app is the flavour's config name for "observability-bundle" in the apps namespace, carrying only the common labels |
| ObservabilityBundle.ConfigMapMeta | pkg/common/observability_bundle.go:35-47 | the values config map is named by the flavour, lives in the apps namespace, and is labelled `app.kubernetes.io/name` = "observability-bundle" plus the common labels |
| ObservabilityBundle.CapiWiredEntryIsConfigMap | pkg/logged-cluster/capicluster/cluster.go:66-74 | the extra config a Cluster API cluster wires names exactly the bundle's values config map |
| ObservabilityBundle.VintageMcUserConfigIsConfigMap | pkg/logged-cluster/vintagemc/cluster.go:77-89 | the user config a vintage management cluster wires names exactly the bundle's values config map |
| ObservabilityBundle.NewVersionContext | pkg/common/observability_bundle.go:54-77 | stands for `GetObservabilityBundleAppVersion`, which pkg/resource/apps-toggle/reconciler.go:40 and the other reconcilers call: a missing app gives no context and a five-minute requeue without error; another read error or an unparsable version gives no context and that error; otherwise the context carries the parsed version and nothing else changes |
| ObservabilityBundle.VersionRoundTrip | pkg/common/observability_bundle.go:74-82 | the version stored in the context is the one read back, with ok true |
| ObservabilityBundle.NoVersionInBackground | pkg/common/observability_bundle.go:79-82 | a context that never received the version reports ok false |
| Predicates.Update | internal/controller/predicates/predicates.go:14-29 | the filter fires exactly when both objects exist, both are labelled as the observability bundle, and the resource version changed |
| ControllerUtil.LoggingAgentFor | internal/controller/controller_util.go:27-31 | alloy falls back to promtail for bundles below 1.6.0; every other agent or bundle keeps the agent |
| ControllerUtil.EventsLoggerFor | internal/controller/controller_util.go:33-37 | alloy falls back to grafana-agent for bundles below 1.9.0; every other case keeps the logger |
| ControllerUtil.FallbacksIdempotent | internal/controller/controller_util.go:19-40 | applying the fallbacks a second time changes nothing |
| ControllerUtil.ToggleAgents | internal/controller/controller_util.go:19-40 | a failed version lookup returns its error and changes nothing; otherwise both fallbacks are applied to the cluster's agents and nil is returned |
| BundleValues.ValuesConfigMap | pkg/resource/grafana-agent-toggle/observability_bundle_configmap.go:37-49 | the YAML of the apps becomes the single "values" key of a config map with the given metadata, and a YAML error is returned as the error |
| AgentsToggle.LogAgentEntriesEnableOne | pkg/resource/agents-toggle/observability_bundle_configmap.go:63-81 | only promtail and alloy are supported; for them both bundle apps are written, the chosen one enabled and the other disabled, and alloy carries its namespace |
| AgentsToggle.EventsLoggerEntriesEnableOne | pkg/resource/agents-toggle/observability_bundle_configmap.go:96-113 | only grafana-agent and alloy are supported; "grafanaAgent" and "alloyEvents" are written, exactly one of them enabled |
| AgentsToggle.ToggleLogAgent | pkg/resource/agents-toggle/observability_bundle_configmap.go:55-84 | the cluster's agent gets the alloy fallback; a supported agent's entries are added to the map; an unsupported one returns an error and leaves the map as it was |
| AgentsToggle.ToggleKubeEventsLogger | pkg/resource/agents-toggle/observability_bundle_configmap.go:87-116 | the cluster's events logger gets the alloy fallback; a supported logger's entries are added to the map; an unsupported one returns an error and leaves the map as it was |
| AgentsToggle.BundleAppsEnableOneOfEach | pkg/resource/agents-toggle/observability_bundle_configmap.go:31-52 | with supported choices the values name four apps: exactly one logging agent and exactly one events logger is enabled |
| AgentsToggle.GenerateObservabilityBundleConfig | pkg/resource/agents-toggle/observability_bundle_configmap.go:31-52 | the agent is examined first and an unsupported one stops before the events logger; any error gives "" and that error; otherwise the YAML of both toggles' entries |
| LoggingAgentsToggle.PromtailAppName | pkg/resource/logging-agents-toggle/observability_bundle_configmap.go:30-33 | the promtail app is "promtail-app" below bundle 1.0.0 and "promtail" from then on |
| LoggingAgentsToggle.AppsShape | pkg/resource/logging-agents-toggle/observability_bundle_configmap.go:42-66 | only promtail and alloy are supported; an enabled "grafanaAgent" entry is there exactly from bundle 0.10.0 on; the promtail entry is enabled exactly for promtail and alloy's entry exactly otherwise |
| LoggingAgentsToggle.GenerateObservabilityBundleConfigMap | pkg/resource/logging-agents-toggle/observability_bundle_configmap.go:27-82 | alloy falls back to promtail below 1.5.0 on the cluster; an unsupported agent gives an empty config map and the "unsupported logging agent" error; otherwise the bundle's values config map with the agent's apps |
| GrafanaAgentToggle.AppName | pkg/resource/grafana-agent-toggle/observability_bundle_configmap.go:24-27 | both branches of the version test pick "grafanaAgent" |
| GrafanaAgentToggle.GenerateObservabilityBundleConfigMap | pkg/resource/grafana-agent-toggle/observability_bundle_configmap.go:23-50 | the bundle's values config map enabling only "grafanaAgent" |
| GrafanaAgentToggle.VersionIrrelevant | pkg/resource/grafana-agent-toggle/observability_bundle_configmap.go:23-50 | the bundle version has no effect on the config map |
| PromtailToggle.ConfigMapMeta | pkg/resource/promtail-toggle/observability_bundle_configmap.go:22-27 | "<name>-observability-bundle-user-values" in the namespace named after the object, with no labels |
| PromtailToggle.GenerateObservabilityBundleConfigMap | pkg/resource/promtail-toggle/observability_bundle_configmap.go:31-53 | the config map holds only "values", the YAML enabling "promtail-app"; it fails exactly when that YAML fails |
| Client.Store.constructor | pkg/common/resource.go:27 | a client over the given objects and injected failures, with no writes yet |
| Client.Store.Get | pkg/common/resource.go:38-40 | the stored object for the key, "not found" for a free key, or the injected failure; nothing changes |
| Client.Store.Create | pkg/common/resource.go:43-47 | one create is logged; a free key gets the object, a taken key gives "already exists", an injected failure changes nothing |
| Client.Store.Update | pkg/common/resource.go:60-63 | one update is logged; a stored key gets the new object, a free key gives "not found", an injected failure changes nothing |
| Client.Store.Delete | pkg/resource/alloy-secret/reconciler.go:129-135 | one delete is logged; a stored key is removed, a free key gives "not found", an injected failure changes nothing |
| Resource.EnsureCreatedOrUpdated | pkg/common/resource.go:27-66 | a failing get writes nothing and returns its error; a free key is created; a stored object is updated exactly when needUpdate says so; at most one write, and the store holds the desired object exactly when that write succeeds |
| Passwords.Run | pkg/resource/credentials/credentials.go:42 | n consecutive characters from the first one on, which builds the 62-letter alphabet |
| Passwords.AlphabetIsAlnum | pkg/resource/credentials/credentials.go:42 | the alphabet has 62 characters, each a letter or a digit |
| Passwords.Drawn | pkg/resource/credentials/credentials.go:41-57 | a password exists exactly when every draw succeeds, and then its i-th character is the alphabet letter the i-th draw picked |
| Passwords.DrawnStaysFailed | pkg/resource/credentials/credentials.go:48-51 | after the first failed draw, later draws cannot change the outcome |
| Passwords.PasswordShape | pkg/resource/credentials/credentials.go:41-57 | a generated password is 20 characters, each a letter or a digit |
| Passwords.Generate | pkg/resource/credentials/credentials.go:41-57 | the loop over a 20-rune array gives the reference password, or the error of the first failed draw |
| Passwords.Fill | pkg/resource/credentials/credentials.go:45-56 | the array loop agrees with the reference password for any length |
| Credentials.SecretMeta | pkg/resource/credentials/credentials.go:29-38 | exactly the given name and namespace, with only the common labels |
| Credentials.GetPassword | pkg/resource/credentials/credentials.go:77-91 | a missing user gives "Not found", an undecodable entry gives "Invalid user <name>", otherwise the decoded password |
| Credentials.Insert | pkg/resource/credentials/credentials.go:94-119 | a present user leaves the table as it is; otherwise the user is added, other keys are untouched, and the error is the password or encoding failure |
| Credentials.InsertThenRemove | pkg/resource/credentials/credentials.go:94-134 | adding a user the table lacked and then removing it gives back the original table |
| Credentials.CredentialsSecret.constructor | pkg/resource/credentials/credentials.go:59-75 | the in-memory secret holds the given metadata and data |
| Credentials.CredentialsSecret.AddCredentials | pkg/resource/credentials/credentials.go:94-119 | the table changes as Insert says; true exactly when the cluster's entry was inserted; a failure leaves the table unchanged |
| Credentials.CredentialsSecret.RemoveCredentials | pkg/resource/credentials/credentials.go:122-134 | only the cluster's key is removed; true exactly when it was there |
| Credentials.CommitOutcome | pkg/resource/credentials/reconciler.go:119-131 | an update is always tried first and a create follows exactly when the update found no secret; on success the store holds the secret, on failure it is unchanged |
| Credentials.CreateWritesIffChanged | pkg/resource/credentials/reconciler.go:86-136 | a failed read writes nothing; otherwise a successful reconcile writes exactly when the cluster's entry was missing or the labels drifted |
| Credentials.CreateStoresEntry | pkg/resource/credentials/reconciler.go:86-136 | after a successful create the stored secret holds the cluster's entry with every earlier entry unchanged and canonical labels |
| Credentials.DeleteRemovesEntry | pkg/resource/credentials/reconciler.go:138-186 | a delete never creates or drops the secret; a stored one loses the cluster's entry and only it |
| Credentials.Commit | pkg/resource/credentials/reconciler.go:119-131 | the store and write log end as CommitOutcome says |
| Credentials.CreateCredentialsSecret | pkg/resource/credentials/reconciler.go:86-136 | the store, write log and error end as the reference create outcome says (read, insert, label reset, update then create) |
| Credentials.DeleteCredentialsSecret | pkg/resource/credentials/reconciler.go:138-186 | the store, write log and error end as the reference delete outcome says; a missing secret is a successful no-op |
| Credentials.ReconcileCreate | pkg/resource/credentials/reconciler.go:28-54 | the logging secret always comes first; the tracing secret only with tracing enabled and after a successful logging step; the result is zero |
| Credentials.ReconcileDelete | pkg/resource/credentials/reconciler.go:57-84 | the same order and gating as the create, with the delete outcome |
| LoggingCredentials.AddLoggingCredentials | pkg/resource/logging-credentials/logging_operator_secrets.go:93-139 | the read user first, then the cluster's user, each only when missing; true exactly when the key set grew; a write-user failure keeps the read user already inserted and returns false |
| LoggingCredentials.AddUser | pkg/resource/logging-credentials/logging_operator_secrets.go:98-116 | one user's entry, generated and stored only when missing; the table ends as Insert says |
| LoggingCredentials.AddedUsersPresent | pkg/resource/logging-credentials/logging_operator_secrets.go:93-139 | after success the table holds both the read user and the cluster's user |
| LoggingCredentials.NewContext | pkg/resource/logging-credentials/context.go:19-31 | a failed read gives no context and its error; otherwise the context carries the secret; the result is always zero |
| LoggingCredentials.ContextRoundTrip | pkg/resource/logging-credentials/context.go:19-36 | FromContext returns the secret NewContext stored, with true |
| LoggingCredentials.NothingInBackground | pkg/resource/logging-credentials/context.go:33-36 | a context without the key gives false |
| LoggingCredentials.Read | pkg/resource/logging-credentials/logging_operator_secrets.go:160-175 | the cached secret first, else the stored one, else the zero secret; never an error |
| LoggingCredentials.ReadAfterNewContext | pkg/resource/logging-credentials/logging_operator_secrets.go:160-175 | behind NewContext, Read serves the secret fetched then, whatever the store holds later |
| MultiTenantProxy.ReadOrgIDIsJoin | pkg/resource/proxy-auth/proxy-auth.go:61-86 | the read user's org-id string is "giantswarm", "default" and every write user joined by "\|" |
| MultiTenantProxy.ReadOrgIDSplits | pkg/resource/proxy-auth/proxy-auth.go:22-23 | split at "\|", the read user's org ids give back the two defaults and then each write user in order, so the read user always has at least two tenants |
| MultiTenantProxy.WriteEntries | pkg/resource/proxy-auth/proxy-auth.go:64-86 | the entries exist exactly when every write user's password can be had, and then entry i is user i with its password and tenant |
| MultiTenantProxy.WriteEntriesStaysFailed | pkg/resource/proxy-auth/proxy-auth.go:68-72 | after the first user whose password lookup fails, later users cannot change the outcome |
| MultiTenantProxy.CollectWriteUsers | pkg/resource/loki-auth/loki-auth.go:77-98 | the loop gives the reference entries, and on success the read user's org-id string over all write users |
| ProxyAuth.WriteUsers | pkg/resource/proxy-auth/proxy-auth.go:39-51 | a key is listed exactly when it ends in neither "user" nor "password" and is not the read user; listed at most once |
| ProxyAuth.ListWriteUsers | pkg/resource/proxy-auth/proxy-auth.go:39-51 | over any iteration order of the credentials, the write users are exactly the qualifying keys, each once |
| ProxyAuth.AuthUsers | pkg/resource/proxy-auth/proxy-auth.go:55-98 | one entry per write user in order, with the cluster's tenant on Cluster API and the user name otherwise, then the read user with the joined org ids; it fails exactly when some listed password is missing or undecodable |
| ProxyAuth.ProxyAuthSecret | pkg/resource/proxy-auth/proxy-auth.go:55-108 | the secret has the fixed metadata and the single key "authn.yaml" holding the encoded users; a lookup error is passed on |
| ProxyAuth.GenerateProxyAuthSecret | pkg/resource/proxy-auth/proxy-auth.go:55-108 | the generated secret is the reference secret over the write users in iteration order |
| LokiAuth.WriteUsers | pkg/resource/loki-auth/loki-auth.go:54-66 | a user is listed exactly when some key ending in "user", other than "readuser", is that user followed by "user" |
| LokiAuth.WriteUsersEdgeCases | pkg/resource/loki-auth/loki-auth.go:56-63 | the key "user" lists the empty user, and "read" is never listed |
| LokiAuth.ListWriteUsers | pkg/resource/loki-auth/loki-auth.go:54-66 | the loop that trims "user" lists the reference write users |
| LokiAuth.AuthUsers | pkg/resource/loki-auth/loki-auth.go:70-113 | each write user is its own tenant, then the "read" login with the joined org ids; it fails exactly when a password or the read login cannot be had |
| LokiAuth.LokiAuthSecret | pkg/resource/loki-auth/loki-auth.go:70-128 | the secret has the fixed metadata and only "authn.yaml" holding the encoded users; a lookup error is passed on |
| LokiAuth.GenerateLokiAuthSecret | pkg/resource/loki-auth/loki-auth.go:70-128 | the generated secret is the reference secret over the write users in iteration order |
| LokiAuth.Toggled | pkg/resource/loki-auth/loki-auth.go:142-154 | only the redeploy label changes: "tick" becomes "tock", and any other value or no value becomes "tick" |
| LokiAuth.ToggleAlwaysChanges | pkg/resource/loki-auth/loki-auth.go:142-154 | a reload always changes the label, so the proxy is always rolled, and two reloads from "tick" return to it |
| LokiAuth.ReloadLokiProxy | pkg/resource/loki-auth/loki-auth.go:131-165 | a failed read writes nothing and returns its error; otherwise exactly one update, which stores the deployment with the label flipped |
| IngressAuth.Hashes | pkg/resource/ingress-auth-secret/ingress-auth-secret.go:43-59 | the map exists exactly when every listed user's password can be looked up and hashed; its keys are the listed users and each value is that user's hash |
| IngressAuth.HashesStaysFailed | pkg/resource/ingress-auth-secret/ingress-auth-secret.go:46-56 | after the first failure, later users cannot change the outcome |
| IngressAuth.HashUsers | pkg/resource/ingress-auth-secret/ingress-auth-secret.go:43-59 | the hashing loop gives the reference map or the first error |
| IngressAuth.SecretMeta | pkg/resource/ingress-auth-secret/ingress-auth-secret.go:15-24 | exactly the given name and namespace, with the common labels |
| IngressAuth.ListUsers | pkg/resource/ingress-auth-secret/ingress-auth-secret.go:33-40 | every credential key is listed, the read user included |
| IngressAuth.GenerateIngressAuthSecret | pkg/resource/ingress-auth-secret/ingress-auth-secret.go:43-59 | on success the hashed map has exactly the credentials' keys |
| IngressAuth.ListWriteUsers | pkg/resource/loki-ingress-auth-secret/ingress-auth-secret.go:41-51 | exactly the credential keys other than the read user, each once |
| IngressAuth.GenerateWriteUsersAuthSecret | pkg/resource/tempo-ingress-auth-secret/ingress-auth-secret.go:55-71 | on success the keys are the credentials' keys without the read user, each mapped to its hash; it fails exactly when some write user cannot be hashed |
| LoggingConfig.ConfigMeta | pkg/resource/logging-config/logging-config.go:52-66 | "<cluster>-logging-config" in the cluster's namespace, with the common labels |
| LoggingConfig.ConfigMetaSeparatesClusters | pkg/resource/logging-config/logging-config.go:64-66 | two differently named clusters never share a logging config map |
| LoggingConfig.GenerateLoggingConfig | pkg/resource/logging-config/logging-config.go:23-50 | promtail and alloy are rendered by their own templates and any other agent gives "unsupported logging agent"; a config map carries the cluster's metadata and the rendered values under the single key "values", and a renderer error is passed on |
| LoggingConfig.FirstIndex | pkg/resource/logging-config/logging-config.go:83 | the first position at which a tenant appears |
| LoggingConfig.DedupSpec | pkg/resource/logging-config/logging-config.go:82-86 | keeping only the first appearance keeps exactly the same tenants, each once, in order of first appearance |
| LoggingConfig.LiveTenantsMembers | pkg/resource/logging-config/logging-config.go:77-81 | a tenant is collected exactly when some organisation that is not being deleted lists it |
| LoggingConfig.ListedTenants | pkg/resource/logging-config/logging-config.go:68-90 | the tenant list has no repeats, follows first appearance, and holds exactly the tenants of organisations not being deleted |
| LoggingConfig.AppendNew | pkg/resource/logging-config/logging-config.go:82-86 | the inner loop appends exactly the tenants not yet collected |
| LoggingConfig.ListTenants | pkg/resource/logging-config/logging-config.go:68-90 | a failed listing is returned as it is; otherwise the loop yields the de-duplicated tenants of the live organisations |
| EventsLoggerConfig.ConfigName | pkg/resource/events-logger-config/events-logger-config.go:60-67 | "<cluster>-grafana-agent-config" for grafana-agent, "<cluster>-events-logger-config" for any other logger |
| EventsLoggerConfig.ConfigNameSeparatesLoggers | pkg/resource/events-logger-config/events-logger-config.go:60-67 | the two names of one cluster never coincide |
| EventsLoggerConfig.ConfigMeta | pkg/resource/events-logger-config/events-logger-config.go:48-58 | the logger's name, in the cluster's namespace, with the common labels |
| EventsLoggerConfig.Generate | pkg/resource/events-logger-config/events-logger-config.go:19-46 | grafana-agent and alloy are rendered by their own templates; any other logger gives "unsupported events logger"; a renderer error is passed on, and a config map carries only "values" |
| K8sEventsConfig.ConfigMeta | pkg/resource/k8s-events-config/events-logger-config.go:47-61 | "<cluster>-events-logger-config" whatever the logger, in the cluster's apps namespace, with the common labels |
| K8sEventsConfig.Generate | pkg/resource/k8s-events-config/events-logger-config.go:18-45 | dispatch on the cluster's events logger: grafana-agent or alloy rendering, any other logger gives "unsupported events logger"; a config map carries only "values" |
| LoggingSecret.SecretMeta | pkg/resource/logging-secret/logging-secret.go:37-51 | "<cluster>-logging-secret" in the cluster's namespace, with the common labels |
| LoggingSecret.AlloyEnv | pkg/resource/logging-secret/alloy-logging-secret.go:37-57 | the template environment has the five logging keys, plus the two tracing keys exactly when a tracing password is given |
| LoggingSecret.AlloyEnvContents | pkg/resource/logging-secret/alloy-logging-secret.go:40-56 | with distinct keys: five entries (seven with tracing), namely the push URL, the default write tenant, the cluster as user with its write password, the ruler URL, and for tracing the cluster with the tracing password |
| LoggingSecret.TracingOnlyAdds | pkg/resource/logging-secret/alloy-logging-secret.go:49-57 | enabling tracing keeps every logging entry and only adds the tracing ones |
| LoggingSecret.AlloyLoggingData | pkg/resource/logging-secret/alloy-logging-secret.go:28-68 | the logs password is fetched first and its error returned; the traces password only with tracing enabled; success gives the single key "values" and happens exactly when the needed passwords and the rendering succeed |
| LoggingSecret.TracesIgnoredWhenDisabled | pkg/resource/logging-secret/alloy-logging-secret.go:49-57 | with tracing disabled, the traces auth manager's answer has no effect |
| LoggingSecret.GenerateAlloyLoggingSecret | pkg/resource/logging-secret/alloy-logging-secret.go:28-68 | building the environment in place and extending it for tracing gives the reference data |
| LoggingSecret.GenerateLoggingSecret | pkg/resource/logging-secret/logging-secret.go:20-35 | the alloy data in a secret with the logging-secret metadata, or the generator's error |
| LoggingSecret.PromtailLoggingValues | pkg/resource/logging-secret/promtail-logging-secret.go:68-94 | one client: the push URL, the default write tenant, the cluster as user and as cluster id, its write password, the installation, the insecure-CA flag, the fixed timeout and back-off |
| LoggingSecret.GeneratePromtailLoggingSecret | pkg/resource/logging-secret/promtail-logging-secret.go:58-105 | a missing or undecodable write password is returned as the error; otherwise the encoded values under the single key "values" |
| LoggingSecret.PromtailClientUsesStoredCredentials | pkg/resource/logging-secret/promtail-logging-secret.go:58-105 | the generated client logs in as a user of the credentials table with that user's stored password |
| EventsLoggerSecret.SecretName | pkg/resource/events-logger-secret/events-logger-secret.go:61-68 | "<cluster>-grafana-agent-secret" for grafana-agent, "<cluster>-events-logger-secret" for any other logger |
| EventsLoggerSecret.SecretNameSeparatesLoggers | pkg/resource/events-logger-secret/events-logger-secret.go:61-68 | the two names of one cluster never coincide |
| EventsLoggerSecret.SecretMeta | pkg/resource/events-logger-secret/events-logger-secret.go:49-59 | the logger's name, in the cluster's namespace, with the common labels |
| EventsLoggerSecret.GrafanaAgentValues | pkg/resource/events-logger-secret/grafana-agent-secret.go:26-55 | the extra secret is named after the cluster and holds exactly the four logging keys |
| EventsLoggerSecret.GrafanaAgentValuesContents | pkg/resource/events-logger-secret/grafana-agent-secret.go:34-44 | with distinct keys: four entries, the push URL, the default write tenant, and the cluster as user with its password |
| EventsLoggerSecret.GrafanaAgentData | pkg/resource/events-logger-secret/grafana-agent-secret.go:26-55 | the cluster's password from the logging credentials (its lookup error passed on), then the encoded values under "values" |
| EventsLoggerSecret.Generate | pkg/resource/events-logger-secret/events-logger-secret.go:21-47 | grafana-agent gets its extra secret; alloy reuses the logging secret's data with both credential tables; any other logger gives "unsupported logging agent"; a secret always carries the logger's metadata |
| TracingSecret.SecretName | pkg/resource/tracing-secret/tracing-secret.go:80-82 | "<cluster>-events-logger-secret" |
| TracingSecret.SecretMeta | pkg/resource/tracing-secret/tracing-secret.go:68-78 | the tracing secret's name in the cluster's namespace, with the common labels |
| TracingSecret.SharesEventsLoggerSecret | pkg/resource/tracing-secret/tracing-secret.go:21 | the tracing secret has the same name and namespace as the events-logger secret of every logger but grafana-agent |
| TracingSecret.TracingEnv | pkg/resource/tracing-secret/tracing-secret.go:42-49 | the environment holds exactly the tracing user, which is the cluster, and its password |
| TracingSecret.Generate | pkg/resource/tracing-secret/tracing-secret.go:34-66 | a failed password draw or rendering is the error; otherwise a secret with the tracing metadata and only "values" |
| AlloySecret.SecretMeta | pkg/resource/alloy-secret/alloy-logging-secret.go:16-26 | "<cluster>-alloy-logging-secret" in the alloy app's namespace, with the common labels |
| AlloySecret.OnlyClusterNameMatters | pkg/resource/alloy-secret/alloy-logging-secret.go:16-26 | the metadata depends only on the cluster name |
| PromtailClient.SecretMeta | pkg/resource/promtail-client/promtail-client.go:62-71 | "<cluster>-logging-secret" in the cluster's apps namespace, with the common labels |
| PromtailClient.SecretMetaSeparatesClusters | pkg/resource/promtail-client/promtail-client.go:62-71 | two differently named clusters never share a promtail-client secret |
| PromtailClient.ClientValues | pkg/resource/promtail-client/promtail-client.go:88-110 | one client: the https push URL, the cluster as tenant and user, its write password, a 10m back-off, and the installation and cluster as external labels |
| PromtailClient.GeneratePromtailClientSecret | pkg/resource/promtail-client/promtail-client.go:75-125 | a missing or undecodable write password is the error; otherwise the encoded values under the single key "values", with the secret's metadata |
| PromtailClient.ClientUsesStoredCredentials | pkg/resource/promtail-client/promtail-client.go:75-125 | the generated client logs in as a user of the credentials table with that user's stored password |
| PromtailClient.CredentialsOf | pkg/resource/promtail-client/promtail-client.go:156-161 | exactly five keys: the first client's URL, tenant, user name, installation and cluster id |
| PromtailClient.GetPromtailCredentials | pkg/resource/promtail-client/promtail-client.go:143-164 | no "values" key gives "Promtail secret content not found", undecodable content gives "Invalid promtail secret content", otherwise the first client's details; at least one client is required, as the code indexes the first |
| PromtailClient.GeneratedClientDetails | pkg/resource/promtail-client/promtail-client.go:88-110 | the details of a generated client: the https push URL, the cluster as tenant, user and cluster id, and the installation |
| PromtailConfig.ConfigMeta | pkg/resource/promtail-config/promtail-config.go:77-86 | "<cluster>-logging-config" in the cluster's apps namespace, with the common labels |
| PromtailConfig.ConfigMetaSeparatesClusters | pkg/resource/promtail-config/promtail-config.go:77-86 | two differently named clusters never share a promtail config map |
| PromtailConfig.PromtailValues | pkg/resource/promtail-config/promtail-config.go:90-218 | workload clusters keep only kube-system and giantswarm and other clusters add no relabelling; fixed arguments, the node-name environment, the system scrape configs with the job label, and three host volumes with their mounts |
| PromtailConfig.MountsMatchVolumes | pkg/resource/promtail-config/promtail-config.go:180-217 | each of the three volumes is mounted read-only at its own host path, under distinct names |
| PromtailConfig.GeneratePromtailConfig | pkg/resource/promtail-config/promtail-config.go:90-233 | the encoded values under the single key "values", with the config's metadata, or the encoding error |
| GrafanaAgentConfig.ConfigMeta | pkg/resource/grafana-agent-config/grafana-agent-config.go:49-58 | "<cluster>-grafana-agent-config" in the cluster's apps namespace, with the common labels |
| GrafanaAgentConfig.ConfigMetaSeparatesClusters | pkg/resource/grafana-agent-config/grafana-agent-config.go:49-58 | two differently named clusters never share a grafana-agent config map |
| GrafanaAgentConfig.NamespacesScraped | pkg/resource/grafana-agent-config/grafana-agent-config.go:71-74 | kube-system and giantswarm on workload clusters, no namespace otherwise |
| GrafanaAgentConfig.AgentValues | pkg/resource/grafana-agent-config/grafana-agent-config.go:76-122 | the agent configuration for the scraped namespaces, the https push URL and the cluster as tenant, user and cluster id, plus one init container that stores the write password |
| GrafanaAgentConfig.AgentReadsStoredPassword | pkg/resource/grafana-agent-config/grafana-agent-config.go:76-122 | the configuration names the endpoint, the tenant, the user and the password file that the init container writes the password into |
| GrafanaAgentConfig.GenerateGrafanaAgentConfig | pkg/resource/grafana-agent-config/grafana-agent-config.go:62-137 | a missing or undecodable write password is the error; otherwise the encoded values under the single key "values" |
| GrafanaAgentSecret.SecretMeta | pkg/resource/grafana-agent-secret/grafana-agent-secret.go:28-37 | "<cluster>-grafana-agent-secret" in the given namespace, with the common labels |
| GrafanaAgentSecret.SecretMetaSeparatesClusters | pkg/resource/grafana-agent-secret/grafana-agent-secret.go:28-37 | two differently named clusters never share a grafana-agent secret |
| GrafanaAgentSecret.GenerateGrafanaAgentSecret | pkg/resource/grafana-agent-secret/grafana-agent-secret.go:41-70 | the cluster's write password is looked up first and its error passed on; otherwise the encoded URL, tenant, user and password under the single key "values" |
| GrafanaAgentSecret.GeneratedIffPasswordStored | pkg/resource/grafana-agent-secret/grafana-agent-secret.go:41-70 | the secret is generated exactly when the cluster's password is stored and decodes, and the values encode |
| GrafanaDatasource.DatasourceSecretMeta | pkg/resource/grafana-datasource/grafana-loki-datasource.go:48-60 | the fixed datasource secret name and namespace, labelled as a datasource on top of the common labels |
| GrafanaDatasource.LokiDatasource | pkg/resource/grafana-datasource/grafana-loki-datasource.go:74-90 | a Loki datasource accessed by proxy, not editable, not managing alerts, with basic auth as the given user and password |
| GrafanaDatasource.GenerateDatasourceSecret | pkg/resource/grafana-datasource/grafana-loki-datasource.go:64-106 | the read user's password is looked up first and its error passed on; otherwise the encoded datasource list under the datasource file name |
| GrafanaDatasource.DatasourceUsesReadCredentials | pkg/resource/grafana-datasource/grafana-loki-datasource.go:64-106 | the datasource logs in as the read user with that user's stored password |
| LokiRoleTemplates.RoleName | pkg/resource/loki-role/iam.go:233-235 | "giantswarm-<installation>-loki" |
| LokiRoleTemplates.RoleNameSeparatesInstallations | pkg/resource/loki-role/iam.go:233-235 | different installations get different role names |
| LokiRoleTemplates.TrustClean | pkg/resource/loki-role/templates.go:31-47 | outside its placeholders the trust policy holds no "@" |
| LokiRoleTemplates.MarkWords | pkg/resource/loki-role/templates.go:37-42 | the three placeholders are "@"-delimited words without inner "@" and start with different letters |
| LokiRoleTemplates.FillTwoSlots | pkg/resource/loki-role/iam.go:237-239 | replacing a placeholder in text whose other parts hold no "@" fills exactly its slots |
| LokiRoleTemplates.RolePolicyFilled | pkg/resource/loki-role/iam.go:237-239 | the templated role policy is the role policy with the installation in both S3 bucket ARNs and nowhere else |
| LokiRoleTemplates.FillCloudDomain | pkg/resource/loki-role/iam.go:242-244 | the first substitution puts the cloud domain in both of its slots and changes nothing else |
| LokiRoleTemplates.FillInstallation | pkg/resource/loki-role/iam.go:242-245 | the second substitution puts the installation in both of its slots, provided the cloud domain already filled in holds no "@" |
| LokiRoleTemplates.FillAccount | pkg/resource/loki-role/iam.go:242-246 | the last substitution puts the account in its slot, provided what was filled in earlier holds no "@" |
| LokiRoleTemplates.TrustPolicyFilled | pkg/resource/loki-role/iam.go:241-248 | when the installation and cloud domain hold no "@", the templated trust policy has the account in the provider ARN and the installation and cloud domain in both provider names |
| LokiRoleTemplates.SubjectSurvivesFilling | pkg/resource/loki-role/templates.go:42 | whatever fills the slots, the condition's subject text is kept |
| LokiRoleTemplates.TrustedSubjectIsLoki | pkg/resource/loki-role/templates.go:40-44 | the only subject allowed to assume the role is the loki service account of the loki namespace |
| Iam.Without | pkg/resource/loki-role/iam.go:177-181 | the list without the removed value, every other value kept |
| Iam.IamClient.constructor | pkg/resource/loki-role/iam.go:28-35 | an IAM account with the given roles, instance profiles and injected failures, and no calls yet |
| Iam.IamClient.GetRole | pkg/resource/loki-role/iam.go:39-41 | one call logged; the stored role, "no such entity" for a missing one, or the injected failure; nothing changes |
| Iam.IamClient.CreateRole | pkg/resource/loki-role/iam.go:70-74 | one call logged; a missing role is created with the trust policy and description and no policies; an existing one gives "entity already exists" |
| Iam.IamClient.UpdateAssumeRolePolicy | pkg/resource/loki-role/iam.go:81-84 | one call logged; only the role's trust policy is replaced; a missing role gives "no such entity" |
| Iam.IamClient.PutRolePolicy | pkg/resource/loki-role/iam.go:90-94 | one call logged; the inline policy is listed once and holds the document; a missing role gives "no such entity" |
| Iam.IamClient.ListAttachedRolePolicies | pkg/resource/loki-role/iam.go:167-169 | one call logged; the role's attached policies, or "no such entity", or the injected failure; nothing changes |
| Iam.IamClient.DetachRolePolicy | pkg/resource/loki-role/iam.go:177-180 | one call logged; the policy leaves the role's attached list and nothing else changes; an unknown role or policy gives "no such entity" |
| Iam.IamClient.ListRolePolicies | pkg/resource/loki-role/iam.go:193-195 | one call logged; the role's inline policy names, or "no such entity", or the injected failure; nothing changes |
| Iam.IamClient.DeleteRolePolicy | pkg/resource/loki-role/iam.go:204-207 | one call logged; the inline policy and its document leave the role; an unknown role or policy gives "no such entity" |
| Iam.IamClient.RemoveRoleFromInstanceProfile | pkg/resource/loki-role/iam.go:121-124 | one call logged; the role leaves the profile; an unknown profile or role gives "no such entity" |
| Iam.IamClient.DeleteInstanceProfile | pkg/resource/loki-role/iam.go:138-140 | one call logged; an empty profile is deleted, a profile still holding roles gives "delete conflict", an unknown one "no such entity" |
| Iam.IamClient.DeleteRole | pkg/resource/loki-role/iam.go:153-155 | one call logged; a role with no policies and in no profile is deleted; one that still has policies or sits in a profile gives "delete conflict", an unknown one "no such entity" |
| LokiRole.IamAdapter.constructor | pkg/resource/loki-role/iam.go:28-35 | the adapter keeps the account id, cloud domain and client it is given |
| LokiRole.IamAdapter.GetRole | pkg/resource/loki-role/iam.go:37-58 | "no such entity" becomes no role and no error; any other error is returned; a found role is the stored one |
| LokiRole.IamAdapter.Configure | pkg/resource/loki-role/iam.go:60-99 | GetRole first; a missing role is created with the trust policy, an existing one gets its trust policy replaced; then the inline role policy named after the role is put; each call only after the previous one succeeded; only this role changes |
| LokiRole.IamAdapter.ConfigureRole | pkg/resource/loki-role/iam.go:60-99 | on success the installation's role holds the filled trust policy and the inline policy with the filled role policy, its attached policies untouched; only this role changes; with no failures it succeeds |
| LokiRole.IamAdapter.DetachAttachedPolicies | pkg/resource/loki-role/iam.go:166-189 | every listed managed policy is detached, stopping at the first error; only the attached list changes; with no failures and no repeats it succeeds |
| LokiRole.IamAdapter.DeleteInlinePolicies | pkg/resource/loki-role/iam.go:192-214 | every listed inline policy is deleted, stopping at the first error; only the inline list and documents change; with no failures and no repeats it succeeds |
| LokiRole.IamAdapter.CleanAttachedPolicies | pkg/resource/loki-role/iam.go:163-218 | managed policies are detached, then inline ones deleted; on success the role has neither, and its trust and description are unchanged |
| LokiRole.IamAdapter.DeleteRole | pkg/resource/loki-role/iam.go:101-161 | a missing role is a successful no-op; a failed lookup is returned with nothing changed; only this role and the profile of its name change; with no failures and profiles that allow it, the role and its profile are gone |
| PodLogs.AllHoldMeansEach | pkg/resource/podlogs/desired.go:27-40 | a selector's requirements hold together exactly when each one holds |
| PodLogs.PodLogs | pkg/resource/podlogs/desired.go:16-97 | two objects, "by-pod" then "by-namespace", both in "giantswarm" and labelled as managed by the operator, each with one "replace" rule copying its tenant label (the pod label `giantswarm.io/logging-tenant` for "by-pod", the namespace label `namespace.giantswarm.io/logging-tenant` for "by-namespace") unchanged into "tenant_id" |
| PodLogs.ByPodSelects | pkg/resource/podlogs/desired.go:17-52 | "by-pod" selects exactly the pods labelled enabled in namespaces not labelled enabled |
| PodLogs.ByNamespaceSelects | pkg/resource/podlogs/desired.go:54-89 | "by-namespace" selects exactly the pods not labelled disabled in namespaces labelled enabled |
| PodLogs.SelectorsDisjoint | pkg/resource/podlogs/desired.go:27-77 | no pod is selected by both objects |
| PodLogs.EnabledPodSelectedOnce | pkg/resource/podlogs/desired.go:27-77 | a pod labelled enabled is selected by exactly one object, wherever it runs |
| PodLogs.ScrapedPods | pkg/resource/podlogs/desired.go:16-97 | together the objects select a pod exactly when it is labelled enabled, or its namespace is labelled enabled and the pod is not labelled disabled |
| PodLogs.GetWithMetaOnly | pkg/resource/podlogs/podlogs-getter.go:16-22 | the object's metadata with an empty spec |
| PodLogs.GetSpec | pkg/resource/podlogs/podlogs-getter.go:25-27 | the object's spec, which with its metadata rebuilds the object |
| PodLogs.MetaThenSpecRebuilds | pkg/resource/podlogs/podlogs-getter.go:16-27 | filling the spec of the metadata-only object gives back the object |
| Finalizers.Add | pkg/reconciler/logging/logging_reconciler.go:46-55 | adding the finalizer keeps the list as a prefix, contains the finalizer afterwards and adds at most that one element |
| Finalizers.Remove | pkg/reconciler/logging/logging_reconciler.go:115 | removing the finalizer keeps exactly the other finalizers and never grows the list |
| Finalizers.RemoveAbsent | internal/controller/delete.go:21-22 | removing a finalizer the object does not carry leaves the list unchanged, which is why the guard is only an optimisation |
| Finalizers.AddThenRemove | pkg/reconciler/logging/logging_reconciler.go:46-120 | a finalizer added by create and removed by delete restores the object's original finalizer list |
| Orchestration.FirstStop | pkg/reconciler/logging/logging_reconciler.go:75-80 | the index where the sub-reconciler loop stops lies between the start and the end of the list |
| Orchestration.FirstStopIsFirst | pkg/reconciler/logging/logging_reconciler.go:75-80 | no sub-reconciler before the stopping one returned an error (or a non-zero result), and the stopping one did |
| Orchestration.ChainedSucceedsIff | pkg/reconciler/logging/logging_reconciler.go:75-82 | the loop succeeds exactly when no sub-reconciler stops it, then all are called; otherwise the first that stops it is the last called and its result is returned |
| Orchestration.CreatePatchesFinalizerFirst | pkg/reconciler/logging/logging_reconciler.go:46-61 | on create an object without the finalizer is patched with it before the agents toggle and every sub-reconciler, which run only after the patch succeeded; an object already carrying it is never patched |
| Orchestration.CreateRequeuesWithoutBundle | pkg/reconciler/logging/logging_reconciler.go:63-71 | a missing observability bundle app requeues after five minutes with no error and no sub-reconciler call |
| Orchestration.CreateSucceedsIff | pkg/reconciler/logging/logging_reconciler.go:63-82 | with the finalizer present and the bundle found, create succeeds exactly when every sub-reconciler returns a zero result and no error, and then all ran in order |
| Orchestration.DeleteWithoutFinalizerDoesNothing | pkg/reconciler/logging/logging_reconciler.go:90-123 | delete on an object without the finalizer makes no call and returns success |
| Orchestration.DeleteToleratesMissingBundle | pkg/reconciler/logging/logging_reconciler.go:91-95 | on delete a not-found bundle lookup behaves exactly like a found one |
| Orchestration.DeleteRemovesFinalizerLast | pkg/reconciler/logging/logging_reconciler.go:97-120 | the finalizer-removal patch is the last call, made only after every sub-reconciler returned a zero result and no error, and it drops exactly the operator's finalizer |
| Orchestration.LoggingReconciler.constructor | pkg/reconciler/logging/logging_reconciler.go:24-29 | a reconciler holds its ordered sub-reconcilers and starts with no calls made |
| Orchestration.LoggingReconciler.RunAll | pkg/reconciler/logging/logging_reconciler.go:75-82 | the loop calls the sub-reconcilers in order up to the first that returns an error or a non-zero result and returns that outcome, or success |
| Orchestration.LoggingReconciler.PatchFinalizers | pkg/reconciler/logging/logging_reconciler.go:51-59 | a failing patch helper makes no call and returns its error; otherwise the object's finalizers are patched and the patch's error returned |
| Orchestration.LoggingReconciler.ReconcileCreate | pkg/reconciler/logging/logging_reconciler.go:42-83 | create makes exactly the calls of the create trace and returns its outcome; the object keeps its labels and gains the finalizer unless the patch helper failed; the agents change only as the bundle version dictates |
| Orchestration.LoggingReconciler.ReconcileDelete | pkg/reconciler/logging/logging_reconciler.go:86-124 | delete makes exactly the calls of the delete trace and returns its outcome; the finalizer is dropped only when the pass reaches the removal patch |
| Orchestration.LoggingReconciler.Reconcile | pkg/reconciler/logging/logging_reconciler.go:31-39 | a cluster with logging enabled goes through create, any other through delete, with that path's calls and outcome |
| Orchestration.LoggingReconciler.ReconcileRequest | internal/controller/capicluster_controller.go:64-84 | a cluster that is not found ends the pass with success and no call; another lookup error is returned; otherwise the pass is the create or delete path |
| Orchestration.ClusterIgnoresResults | internal/controller/create.go:30-35 | the older controller's calls and error depend only on the sub-reconcilers' errors, never on their results |
| Orchestration.ClusterDeleteOnlyDropsFinalizer | internal/controller/delete.go:14-30 | tearing down calls no sub-reconciler and updates the finalizer off the object exactly when it carries it, keeping its other finalizers |
| Orchestration.ClusterCreateFinalizerFirst | internal/controller/create.go:15-38 | every sub-reconciler call follows a successful finalizer update when one was needed, and the pass succeeds exactly when that update and every sub-reconciler succeed |
| Orchestration.ClusterReconciler.constructor | internal/controller/cluster_controller.go:53-87 | the older controller holds its sub-reconcilers and starts with no calls made |
| Orchestration.ClusterReconciler.RunCreates | internal/controller/create.go:30-37 | the loop calls the sub-reconcilers in order up to the first error, ignoring their results, and returns that error or none |
| Orchestration.ClusterReconciler.ReconcileCreate | internal/controller/create.go:15-38 | setting logging up makes exactly the calls of the cluster trace and returns its error with a zero result |
| Orchestration.ClusterReconciler.ReconcileDelete | internal/controller/delete.go:14-30 | tearing down makes exactly the calls of the cluster trace and returns its error with a zero result |
| Orchestration.ClusterReconciler.Reconcile | internal/controller/cluster_controller.go:53-87 | every lookup error, not-found included, is returned; otherwise a disabled or deleting cluster is torn down and any other set up, and the sub-path's result is discarded |
| Flags.StringSliceVar.constructor | main.go:72 | a flag starts with no values |
| Flags.StringSliceVar.String | main.go:74-76 | splitting the comma-joined string gives the values back when there is at least one and none contains a comma |
| Flags.StringSliceVar.Set | main.go:78-81 | the values become the comma-separated parts of the argument, one more than its commas and none containing a comma, `String` then returns the argument, and no error is reported |

## Left out

- Kubernetes and AWS transport, controller-runtime manager setup, watches, logging and `errors.WithStack`. Wrapping an error with a stack is the identity here.
- The per-resource `Reconcile*` methods other than the ones modelled. They all follow the get, then create or update, pattern of `Resource.EnsureCreatedOrUpdated`, which is modelled once.
- The template renderers' bodies, YAML encoding and decoding, and bcrypt. They are abstract functions, so properties about rendered text hold for any renderer.
- IngressAuth.Hashes: `bcrypt.GenerateFromPassword` salts each hash at random, so two runs hash one password differently. The abstract `Bcrypt` is a fixed function of the password and does not capture that; no property stated here depends on two hashes being equal.
- `crypto/rand`: its results are the `draw` parameter.
- The blang pre-release ordering beyond "a pre-release sorts below its release".
- Semver.ParseStrict: blang's parser reads each version component with a 64-bit `strconv.ParseUint`, so a component above 2^64-1 is a parse error in Go. The model reads components as unbounded naturals and accepts such a version. This affects pkg/common/observability_bundle.go:69, pkg/resource/logging-agents-toggle/reconciler.go:83 and pkg/resource/apps-toggle/reconciler.go:40.
- `fmt`'s `%q` escaping: `Strings.Quoted` covers text that needs no escaping.
- The snapshot calls functions it does not define:
  - `common.IsLoggingEnabled(lc, flag)` with two arguments. The model uses the one-argument label test of pkg/common/common.go:3-7.
  - `common.ToggleAgents`. The model uses internal/controller/controller_util.go's `toggleAgents`.
  - `loggingcredentials.GetPass` and `GetLogin`. These are abstract functions.
  - `UpdateLoggingCredentials`, in pkg/resource/logging-credentials/reconciler.go. That file is not part of this model.
  - `Options.DisableLoggingFlag`, in pkg/vintagemc/cluster.go. That file is not part of this model.
  - `loggingsecret.GenerateAlloyLoggingSecret` with five arguments `(cluster, loggingCredentialsSecret, lokiURL, tracingEnabled, tracingCredentialsSecret)`, at pkg/resource/events-logger-secret/events-logger-secret.go:33. The definition at pkg/resource/logging-secret/alloy-logging-secret.go:28 takes `(ctx, cluster, logsAuthManager, tracesAuthManager, lokiURL, tracingEnabled)`. The model calls the definition's logic.
  - `GenerateAlloyLoggingSecret(lc, &loggingCredentialsSecret, lokiURL)` with three arguments, at pkg/resource/alloy-secret/reconciler.go:72. Package alloy-secret defines no such function, and the logging-secret definition takes six arguments. The model does not build the alloy-secret reconciler's desired secret.
  - `loggingcredentials.GeneratePassword()`, at pkg/resource/tracing-secret/tracing-secret.go:37. Only the unexported `genPassword` exists, at pkg/resource/logging-credentials/logging_operator_secrets.go:45.
- EventsLoggerSecret.Generate: for alloy, the two passwords come from `Credentials.GetPassword` over the logging and tracing credential tables. This lookup stands in for `AuthManager.GetClusterPassword`, which the definition of `GenerateAlloyLoggingSecret` calls. The `ctx` argument is dropped.
- TracingSecret.Generate: the call to the undefined `loggingcredentials.GeneratePassword()` is modelled as `Passwords.Drawn(draw, Passwords.Length())`. This is the same draw as `genPassword`.
- Orchestration.LoggingReconciler.ReconcileCreate: the agent configuration that `capicluster_controller.go` passes to each sub-reconciler is not modelled. Sub-reconcilers are represented only by the outcome they return in the pass.
- Orchestration.LoggingReconciler.Reconcile: the `EnableLoggingFlag` argument is not modelled, because the snapshot's label test takes labels only.
- Orchestration.ClusterReconciler.Reconcile: the sub-reconcilers' effects on other objects are not modelled, only their outcomes.
- The vintage management-cluster and vintage workload-cluster controllers, and the grafana-organization reconciler. They only fetch an object and delegate.
- `common.IsWorkloadCluster` is defined outside the core files and is abstract here.
- PromtailConfig.PromtailValues: the system scrape configs are a fixed YAML string literal in pkg/resource/promtail-config/promtail-config.go:121-178. The model leaves that text abstract (`SystemScrapeConfigs`), stating only that it is passed through unchanged.
- PromtailClient.GetPromtailCredentials: a decoded secret with no clients is excluded by its `requires`, because the Go code indexes the first client unguarded.
- PromtailClient.GetPromtailCredentials: it decodes the client section directly, not the generator's `values` wrapper. So no round trip with `GeneratePromtailClientSecret` is stated.
- GrafanaDatasource.DatasourceSecretMeta: the Go function takes a logged cluster and ignores it. The model drops the argument.
- TracingSecret.SharesEventsLoggerSecret states that the tracing secret and the events-logger secret of a non-grafana-agent logger have the same name and namespace. The source lets two resources manage that one object, and the model records this as it stands.
- LokiRoleTemplates.TrustPolicyFilled assumes the installation name and cloud domain contain no "@". Text containing "@" could be mistaken by a later `ReplaceAll` step for a placeholder, and the general case is not stated.
- LokiRole.IamAdapter.DeleteInlinePolicies: the role's policy documents after the deletion are stated only as "whatever the service left". The exact set is not stated.
- IAM client construction, STS role assumption, `getRoleToAssume` and ARN parsing (pkg/resource/loki-role/iam.go:220-232 and the reconciler). They are AWS plumbing.
- The value of the `managed-by` label on PodLogs objects (`label.ManagedBy`) is defined outside the core files.
- The logging-credentials `ReconcileDelete`, which does nothing.
- Concurrency between controllers and conflicts on the API server: each pass runs against a store whose faults are given up front.

## Findings

| source | as written | input that shows it | evidently intended | confidence | as-written member | corrected member |
|---|---|---|---|---|---|---|
| pkg/resource/logging-wiring/reconciler.go:110-121 | `unwireLogging` ranges over the current app's extra configs and splices each match out with `append(current[:index], current[index+1:]...)`. That append writes into the backing array the loop is still reading, and each splice restarts from the current list, not from the result so far. The same splice sits in `UnwireLogging` at pkg/logged-cluster/capicluster/cluster.go:83 and in `UnwirePromtail` at pkg/capicluster/cluster.go:99; CapiCluster.UnwireLogging and LegacyCapiCluster.UnwirePromtail model both with the corrected ExtraConfigs.Unwire. | extra configs `[e, e]`, where `e` is the wired entry: the result is `[e]` | every copy of the wired entry is removed, giving `[]`; the list is `Without(list, e)` | not executed | ExtraConfigs.UnwireAsWrittenKeepsDuplicate | ExtraConfigs.Unwire |
| pkg/logged-cluster/vintagemc/cluster.go:64-75 | `UnwireLogging` clears the bundle's user config when its name OR its namespace matches the logging values config map | a user config `my-values` in namespace `giantswarm`: it is cleared | only a user config pointing at the logging values config map, by name AND namespace, is cleared | not executed | VintageMc.ForeignUserConfigIsCleared | VintageMc.UnwireLogging |
