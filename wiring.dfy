/**
 * pkg/resource/logging-wiring: points the observability bundle app at the
 * logging extra config on create and takes the entry out again on delete,
 * writing the app back only when the wiring changed it.
 */
module LoggingWiring {
  import opened Kube
  import opened Client
  import Clusters
  import CapiCluster
  import ObservabilityBundle
  import ExtraConfigs

  /** `getWiredExtraConfig`: the bundle's logging config map as an extra config of priority 25. */
  function WiredExtraConfig(lc: Clusters.LoggedCluster): (e: ExtraConfig)
    ensures e.kind == "configMap" && e.priority == 25
    ensures e.name == ObservabilityBundle.ConfigMapMeta(lc).name
    ensures e.namespace == ObservabilityBundle.ConfigMapMeta(lc).namespace
    ensures lc.Capi? ==> e == CapiCluster.WiredExtraConfig(lc.meta)
  {
    var m := ObservabilityBundle.ConfigMapMeta(lc);
    ExtraConfigs.WiredEntry(m.name, m.namespace)
  }

  /** Where the bundle app of `lc` is stored. */
  function AppKey(lc: Clusters.LoggedCluster): NamespacedName
  {
    KeyOf(ObservabilityBundle.AppMeta(lc))
  }

  /** The wiring changes an app exactly when the entry is missing from it. */
  lemma WiredChangesIffMissing(list: seq<ExtraConfig>, e: ExtraConfig)
    ensures ExtraConfigs.Wired(list, e) == list <==> e in list
  {
    ExtraConfigs.WiredAddsOnce(list, e);
    if e !in list {
      assert |ExtraConfigs.Wired(list, e)| == |list| + 1;
    }
  }

  /** The unwiring changes an app exactly when the entry is in it. */
  lemma UnwiredChangesIffPresent(list: seq<ExtraConfig>, e: ExtraConfig)
    ensures ExtraConfigs.Without(list, e) == list <==> e !in list
  {
    ExtraConfigs.WithoutRemovesAll(list, e);
    if e !in list {
      ExtraConfigs.WithoutNoMatch(list, e);
    }
  }

  /**
   * `ReconcileCreate`: a missing app asks for a requeue in five minutes
   * without an error, any other read failure is returned, and an app that
   * lacks the entry is written back with it appended; an app that has it
   * is not written.
   */
  method ReconcileCreate(apps: Store<App>, lc: Clusters.LoggedCluster) returns (res: CtrlResult, err: Option<Error>)
    modifies apps
    ensures apps.failing == old(apps.failing)
    ensures (GetOp, AppKey(lc)) in apps.failing ==>
      && res == ZeroResult && err == Some(ApiError)
      && apps.objects == old(apps.objects) && apps.writes == old(apps.writes)
    ensures (GetOp, AppKey(lc)) !in apps.failing && AppKey(lc) !in old(apps.objects) ==>
      && res == RequeueFiveMinutes && err.None?
      && apps.objects == old(apps.objects) && apps.writes == old(apps.writes)
    ensures ((GetOp, AppKey(lc)) !in apps.failing && AppKey(lc) in old(apps.objects)
      && WiredExtraConfig(lc) in old(apps.objects)[AppKey(lc)].extraConfigs) ==>
      && res == ZeroResult && err.None?
      && apps.objects == old(apps.objects) && apps.writes == old(apps.writes)
    ensures ((GetOp, AppKey(lc)) !in apps.failing && AppKey(lc) in old(apps.objects)
      && WiredExtraConfig(lc) !in old(apps.objects)[AppKey(lc)].extraConfigs) ==>
      && res == ZeroResult
      && apps.writes == old(apps.writes) + [Write(UpdateOp, AppKey(lc))]
      && (err.None? <==> (UpdateOp, AppKey(lc)) !in apps.failing)
      && apps.objects == (if err.None?
        then old(apps.objects)[AppKey(lc) := old(apps.objects)[AppKey(lc)].(extraConfigs := old(apps.objects)[AppKey(lc)].extraConfigs + [WiredExtraConfig(lc)])]
        else old(apps.objects))
  {
    var key := AppKey(lc);
    var current := apps.Get(key);
    if current.Err? {
      if current.error == NotFound {
        return RequeueFiveMinutes, None;
      }
      return ZeroResult, Some(current.error);
    }
    var desired := ExtraConfigs.Wire(current.value, WiredExtraConfig(lc));
    WiredChangesIffMissing(current.value.extraConfigs, WiredExtraConfig(lc));
    if current.value != desired {
      err := apps.Update(key, desired);
      if err.Some? {
        return ZeroResult, err;
      }
    }
    return ZeroResult, None;
  }

  /**
   * `ReconcileDelete`: a missing app is a successful no-op, any other read
   * failure is returned, and an app holding the entry is written back
   * without it; an app without it is not written.
   */
  method ReconcileDelete(apps: Store<App>, lc: Clusters.LoggedCluster) returns (res: CtrlResult, err: Option<Error>)
    modifies apps
    ensures res == ZeroResult
    ensures apps.failing == old(apps.failing)
    ensures (GetOp, AppKey(lc)) in apps.failing ==>
      && err == Some(ApiError)
      && apps.objects == old(apps.objects) && apps.writes == old(apps.writes)
    ensures ((GetOp, AppKey(lc)) !in apps.failing
      && (AppKey(lc) !in old(apps.objects) || WiredExtraConfig(lc) !in old(apps.objects)[AppKey(lc)].extraConfigs)) ==>
      && err.None?
      && apps.objects == old(apps.objects) && apps.writes == old(apps.writes)
    ensures ((GetOp, AppKey(lc)) !in apps.failing && AppKey(lc) in old(apps.objects)
      && WiredExtraConfig(lc) in old(apps.objects)[AppKey(lc)].extraConfigs) ==>
      && apps.writes == old(apps.writes) + [Write(UpdateOp, AppKey(lc))]
      && (err.None? <==> (UpdateOp, AppKey(lc)) !in apps.failing)
      && apps.objects == (if err.None?
        then old(apps.objects)[AppKey(lc) := old(apps.objects)[AppKey(lc)].(extraConfigs := ExtraConfigs.Without(old(apps.objects)[AppKey(lc)].extraConfigs, WiredExtraConfig(lc)))]
        else old(apps.objects))
  {
    var key := AppKey(lc);
    var current := apps.Get(key);
    if current.Err? {
      if current.error == NotFound {
        return ZeroResult, None;
      }
      return ZeroResult, Some(current.error);
    }
    var desired := ExtraConfigs.Unwire(current.value, WiredExtraConfig(lc));
    UnwiredChangesIffPresent(current.value.extraConfigs, WiredExtraConfig(lc));
    if current.value != desired {
      err := apps.Update(key, desired);
      if err.Some? {
        return ZeroResult, err;
      }
    }
    return ZeroResult, None;
  }
}

/**
 * pkg/resource/promtail-wiring: the earlier wiring that points the bundle's
 * user config at the promtail values and clears it again.
 */
module PromtailWiring {
  import opened Kube
  import opened Client
  import PromtailToggle

  /** `ObservabilityBundleAppMeta`: "<name>-observability-bundle" in the namespace named after the object, without labels. */
  function AppMeta(obj: ObjectMeta): (m: ObjectMeta)
    ensures |m.name| == |obj.name| + |"-observability-bundle"|
    ensures m.name[..|obj.name|] == obj.name && m.name[|obj.name|..] == "-observability-bundle"
    ensures m.namespace == obj.name && m.labels == map[]
  {
    ObjectMeta(obj.name + "-observability-bundle", obj.name, map[])
  }

  /** Only the object's name matters. */
  lemma AppMetaOnlyByName(a: ObjectMeta, b: ObjectMeta)
    requires a.name == b.name
    ensures AppMeta(a) == AppMeta(b)
  {
  }

  function AppKey(obj: ObjectMeta): NamespacedName
  {
    KeyOf(AppMeta(obj))
  }

  /** The user config that points at the promtail values config map of `obj`. */
  function Target(obj: ObjectMeta): (t: ConfigMapRef)
    ensures t.name == PromtailToggle.ConfigMapMeta(obj).name && t.namespace == PromtailToggle.ConfigMapMeta(obj).namespace
  {
    var m := PromtailToggle.ConfigMapMeta(obj);
    ConfigMapRef(m.name, m.namespace)
  }

  /**
   * `setUserConfig`: the app's user config ends up pointing at the values
   * config map, and `updated` reports whether either field differed; a
   * second call therefore reports nothing and changes nothing.
   */
  method SetUserConfig(app: App, obj: ObjectMeta) returns (updated: bool, result: App)
    ensures result.userConfig == Target(obj)
    ensures result == app.(userConfig := result.userConfig)
    ensures updated <==> app.userConfig != Target(obj)
    ensures app.userConfig == Target(obj) ==> result == app
  {
    var m := PromtailToggle.ConfigMapMeta(obj);
    updated := app.userConfig.name != m.name || app.userConfig.namespace != m.namespace;
    result := app.(userConfig := app.userConfig.(name := m.name));
    result := result.(userConfig := result.userConfig.(namespace := m.namespace));
  }

  /**
   * `unsetUserConfig`: both fields are always cleared; `updated` is true
   * when the name OR the namespace matched the values config map.
   */
  method UnsetUserConfig(app: App, obj: ObjectMeta) returns (updated: bool, result: App)
    ensures result == app.(userConfig := ConfigMapRef("", ""))
    ensures updated <==> app.userConfig.name == Target(obj).name || app.userConfig.namespace == Target(obj).namespace
  {
    var m := PromtailToggle.ConfigMapMeta(obj);
    updated := app.userConfig.name == m.name || app.userConfig.namespace == m.namespace;
    result := app.(userConfig := app.userConfig.(name := ""));
    result := result.(userConfig := result.userConfig.(namespace := ""));
  }

  /**
   * `ReconcileCreate`: every read failure, a missing app included, is
   * returned; the app is written back only when `SetUserConfig` reported a
   * change.
   */
  method ReconcileCreate(apps: Store<App>, obj: ObjectMeta) returns (res: CtrlResult, err: Option<Error>)
    modifies apps
    ensures res == ZeroResult
    ensures apps.failing == old(apps.failing)
    ensures (GetOp, AppKey(obj)) in apps.failing ==>
      err == Some(ApiError) && apps.objects == old(apps.objects) && apps.writes == old(apps.writes)
    ensures (GetOp, AppKey(obj)) !in apps.failing && AppKey(obj) !in old(apps.objects) ==>
      err == Some(NotFound) && apps.objects == old(apps.objects) && apps.writes == old(apps.writes)
    ensures ((GetOp, AppKey(obj)) !in apps.failing && AppKey(obj) in old(apps.objects)
      && old(apps.objects)[AppKey(obj)].userConfig == Target(obj)) ==>
      err.None? && apps.objects == old(apps.objects) && apps.writes == old(apps.writes)
    ensures ((GetOp, AppKey(obj)) !in apps.failing && AppKey(obj) in old(apps.objects)
      && old(apps.objects)[AppKey(obj)].userConfig != Target(obj)) ==>
      && apps.writes == old(apps.writes) + [Write(UpdateOp, AppKey(obj))]
      && (err.None? <==> (UpdateOp, AppKey(obj)) !in apps.failing)
      && apps.objects == (if err.None?
        then old(apps.objects)[AppKey(obj) := old(apps.objects)[AppKey(obj)].(userConfig := Target(obj))]
        else old(apps.objects))
  {
    var key := AppKey(obj);
    var current := apps.Get(key);
    if current.Err? {
      return ZeroResult, Some(current.error);
    }
    var updated, app := SetUserConfig(current.value, obj);
    if updated {
      err := apps.Update(key, app);
      if err.Some? {
        return ZeroResult, err;
      }
    }
    return ZeroResult, None;
  }

  /**
   * `ReconcileDelete`: a missing app is a successful no-op; otherwise the
   * cleared app is written back when `UnsetUserConfig` reported a change.
   */
  method ReconcileDelete(apps: Store<App>, obj: ObjectMeta) returns (res: CtrlResult, err: Option<Error>)
    modifies apps
    ensures res == ZeroResult
    ensures apps.failing == old(apps.failing)
    ensures (GetOp, AppKey(obj)) in apps.failing ==>
      err == Some(ApiError) && apps.objects == old(apps.objects) && apps.writes == old(apps.writes)
    ensures (GetOp, AppKey(obj)) !in apps.failing && AppKey(obj) !in old(apps.objects) ==>
      err.None? && apps.objects == old(apps.objects) && apps.writes == old(apps.writes)
    ensures ((GetOp, AppKey(obj)) !in apps.failing && AppKey(obj) in old(apps.objects)
      && old(apps.objects)[AppKey(obj)].userConfig.name != Target(obj).name
      && old(apps.objects)[AppKey(obj)].userConfig.namespace != Target(obj).namespace) ==>
      err.None? && apps.objects == old(apps.objects) && apps.writes == old(apps.writes)
    ensures ((GetOp, AppKey(obj)) !in apps.failing && AppKey(obj) in old(apps.objects)
      && (old(apps.objects)[AppKey(obj)].userConfig.name == Target(obj).name
        || old(apps.objects)[AppKey(obj)].userConfig.namespace == Target(obj).namespace)) ==>
      && apps.writes == old(apps.writes) + [Write(UpdateOp, AppKey(obj))]
      && (err.None? <==> (UpdateOp, AppKey(obj)) !in apps.failing)
      && apps.objects == (if err.None?
        then old(apps.objects)[AppKey(obj) := old(apps.objects)[AppKey(obj)].(userConfig := ConfigMapRef("", ""))]
        else old(apps.objects))
  {
    var key := AppKey(obj);
    var current := apps.Get(key);
    if current.Err? {
      if current.error == NotFound {
        return ZeroResult, None;
      }
      return ZeroResult, Some(current.error);
    }
    var updated, app := UnsetUserConfig(current.value, obj);
    if updated {
      err := apps.Update(key, app);
      if err.Some? {
        return ZeroResult, err;
      }
    }
    return ZeroResult, None;
  }
}
