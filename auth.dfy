/**
 * What the proxy-auth and loki-auth builders share: the user entries of a
 * multi-tenant proxy's auth config, the read user's org-id string, and the
 * iteration order of a Go map.
 */
module MultiTenantProxy {
  import opened Kube
  import opened Strings

  /** A user of the multi-tenant proxy and the tenants it may use. */
  datatype User = User(username: string, password: string, orgID: string)

  /** The tenants the read user always has; at least two, so that it can never write. */
  const DefaultReadOrgIDs := "giantswarm|default"

  /** `order` lists every key of a Go map exactly once: one of its possible iteration orders. */
  predicate Enumerates(order: seq<string>, keys: set<string>)
  {
    && (forall i :: 0 <= i < |order| ==> order[i] in keys)
    && (forall k :: k in keys ==> k in order)
    && (forall i, j :: 0 <= i < j < |order| ==> order[i] != order[j])
  }

  /** The read user's org-id string after the loop has seen `users`: the defaults, then "|" and each user. */
  function ReadOrgID(users: seq<string>): string
  {
    if |users| == 0 then DefaultReadOrgIDs
    else ReadOrgID(users[..|users| - 1]) + "|" + users[|users| - 1]
  }

  /** The read user's org-id string is the defaults and the write users joined by "|". */
  lemma {:induction false} ReadOrgIDIsJoin(users: seq<string>)
    ensures ReadOrgID(users) == Join(["giantswarm", "default"] + users, '|')
  {
    if |users| == 0 {
      assert ["giantswarm", "default"] + users == ["giantswarm", "default"];
      assert Join(["default"], '|') == "default";
    } else {
      var init := users[..|users| - 1];
      ReadOrgIDIsJoin(init);
      JoinAppend(["giantswarm", "default"] + init, users[|users| - 1], '|');
      assert ["giantswarm", "default"] + init + [users[|users| - 1]] == ["giantswarm", "default"] + users;
    }
  }

  /** Split at "|", the read user's org-id string gives back the two defaults followed by every write user, in order. */
  lemma ReadOrgIDSplits(users: seq<string>)
    requires forall i :: 0 <= i < |users| ==> '|' !in users[i]
    ensures Split(ReadOrgID(users), '|') == ["giantswarm", "default"] + users
  {
    ReadOrgIDIsJoin(users);
    SplitJoinedDefaults(users);
  }

  lemma SplitJoinedDefaults(users: seq<string>)
    requires forall i :: 0 <= i < |users| ==> '|' !in users[i]
    ensures Split(Join(["giantswarm", "default"] + users, '|'), '|') == ["giantswarm", "default"] + users
  {
    DefaultsHaveNoSeparator();
    SplitJoinedPrefix(["giantswarm", "default"], users);
  }

  lemma DefaultsHaveNoSeparator()
    ensures forall i :: 0 <= i < |["giantswarm", "default"]| ==> '|' !in ["giantswarm", "default"][i]
  {
    assert '|' !in "giantswarm" && '|' !in "default";
  }

  lemma SplitJoinedPrefix(pre: seq<string>, users: seq<string>)
    requires |pre| >= 1
    requires forall i :: 0 <= i < |pre| ==> '|' !in pre[i]
    requires forall i :: 0 <= i < |users| ==> '|' !in users[i]
    ensures Split(Join(pre + users, '|'), '|') == pre + users
  {
    NoSeparatorInParts(pre, users);
    SplitJoin(pre + users, '|');
  }

  lemma NoSeparatorInParts(pre: seq<string>, users: seq<string>)
    requires forall i :: 0 <= i < |pre| ==> '|' !in pre[i]
    requires forall i :: 0 <= i < |users| ==> '|' !in users[i]
    ensures forall i :: 0 <= i < |pre + users| ==> '|' !in (pre + users)[i]
  {
  }

  /**
   * Reference definition of the write-user loop: one entry per user, with
   * its password and org id, or the error of the first user whose password
   * cannot be had.
   */
  function WriteEntries(users: seq<string>, password: string -> Result<string>, orgID: string -> string): (r: Result<seq<User>>)
    ensures r.Ok? <==> forall i :: 0 <= i < |users| ==> password(users[i]).Ok?
    ensures r.Ok? ==> |r.value| == |users|
    ensures r.Ok? ==> forall i :: 0 <= i < |users| ==> r.value[i] == User(users[i], password(users[i]).value, orgID(users[i]))
  {
    if |users| == 0 then Ok([])
    else
      var u := users[|users| - 1];
      match WriteEntries(users[..|users| - 1], password, orgID)
      case Err(e) => Err(e)
      case Ok(entries) =>
        match password(u)
        case Err(e) => Err(e)
        case Ok(p) => Ok(entries + [User(u, p, orgID(u))])
  }

  lemma {:induction false} WriteEntriesStaysFailed(users: seq<string>, i: nat, password: string -> Result<string>, orgID: string -> string)
    requires i <= |users| && WriteEntries(users[..i], password, orgID).Err?
    ensures WriteEntries(users, password, orgID) == WriteEntries(users[..i], password, orgID)
    decreases |users| - i
  {
    if i < |users| {
      assert users[..|users| - 1][..i] == users[..i];
      WriteEntriesStaysFailed(users[..|users| - 1], i, password, orgID);
    } else {
      assert users[..i] == users;
    }
  }

  /**
   * The write-user loop of both proxy builders: appends an entry per user
   * and extends the read user's org-id string, stopping at the first
   * password it cannot get.
   */
  method CollectWriteUsers(users: seq<string>, password: string -> Result<string>, orgID: string -> string)
    returns (r: Result<seq<User>>, readOrgID: string)
    ensures r == WriteEntries(users, password, orgID)
    ensures r.Ok? ==> readOrgID == ReadOrgID(users)
  {
    var entries: seq<User> := [];
    readOrgID := DefaultReadOrgIDs;
    for i := 0 to |users|
      invariant WriteEntries(users[..i], password, orgID) == Ok(entries)
      invariant readOrgID == ReadOrgID(users[..i])
    {
      assert users[..i + 1][..i] == users[..i];
      var p := password(users[i]);
      if p.Err? {
        WriteEntriesStaysFailed(users, i + 1, password, orgID);
        return Err(p.error), readOrgID;
      }
      entries := entries + [User(users[i], p.value, orgID(users[i]))];
      readOrgID := readOrgID + "|" + users[i];
    }
    assert users[..|users|] == users;
    r := Ok(entries);
  }
}

/**
 * pkg/resource/proxy-auth: the auth config of grafana-multi-tenant-proxy,
 * one user per cluster writing to its tenant and one read user allowed on
 * every tenant.
 */
module ProxyAuth {
  import opened Kube
  import opened Strings
  import opened MultiTenantProxy
  import Common
  import Clusters
  import Credentials

  const SecretName := "grafana-multi-tenant-proxy-auth-config"
  const SecretNamespace := "monitoring"

  /** YAML encoding of the auth config; a foreign library. */
  const MarshalAuthConfig: seq<User> -> Result<string>

  /** `proxyAuthSecretMeta`: fixed name and namespace, common labels. */
  const Meta := ObjectMeta(SecretName, SecretNamespace, AddCommonLabels(map[]))

  /** Old-style entries ("...user", "...password") and the read user are not write users. */
  predicate IsWriteUser(u: string)
  {
    !HasSuffix(u, "user") && !HasSuffix(u, "password") && u != Common.ReadUser
  }

  /** Reference definition of `listWriteUsers` over the iteration order `order`. */
  function WriteUsers(order: seq<string>): (r: seq<string>)
    ensures forall u :: u in r <==> u in order && IsWriteUser(u)
    ensures (forall i, j :: 0 <= i < j < |order| ==> order[i] != order[j]) ==>
      forall i, j :: 0 <= i < j < |r| ==> r[i] != r[j]
  {
    if |order| == 0 then []
    else
      var u := order[|order| - 1];
      var init := WriteUsers(order[..|order| - 1]);
      assert forall x :: x in order <==> x in order[..|order| - 1] || x == u;
      if IsWriteUser(u) then init + [u] else init
  }

  /** `listWriteUsers`: the write users among the credential keys, each once. */
  method ListWriteUsers(data: map<string, string>, order: seq<string>) returns (users: seq<string>)
    requires Enumerates(order, data.Keys)
    ensures users == WriteUsers(order)
    ensures forall u :: u in users <==> u in data && IsWriteUser(u)
    ensures forall i, j :: 0 <= i < j < |users| ==> users[i] != users[j]
  {
    users := [];
    for i := 0 to |order|
      invariant users == WriteUsers(order[..i])
    {
      assert order[..i + 1][..i] == order[..i];
      if !HasSuffix(order[i], "user") && !HasSuffix(order[i], "password") && order[i] != Common.ReadUser {
        users := users + [order[i]];
      }
    }
    assert order[..|order|] == order;
  }

  /** The tenant a write user writes to: the cluster's tenant on Cluster API, else the user itself. */
  function OrgIDOf(lc: Clusters.LoggedCluster): string -> string
  {
    u => if Clusters.IsCAPI(lc) then Clusters.Tenant(lc) else u
  }

  function PasswordOf(data: map<string, string>): string -> Result<string>
  {
    u => Credentials.GetPassword(data, u)
  }

  /** Reference definition of the users list: the write users in order, then the read user. */
  function AuthUsers(lc: Clusters.LoggedCluster, data: map<string, string>, users: seq<string>): (r: Result<seq<User>>)
    ensures r.Ok? ==> |r.value| == |users| + 1
    ensures r.Ok? ==> forall i :: 0 <= i < |users| ==>
      (r.value[i].username == users[i] && r.value[i].orgID == (if Clusters.IsCAPI(lc) then Clusters.Tenant(lc) else users[i]))
    ensures r.Ok? ==> Credentials.GetPassword(data, Common.ReadUser).Ok?
    ensures r.Ok? ==> r.value[|users|] == User(Common.ReadUser, Credentials.GetPassword(data, Common.ReadUser).value, ReadOrgID(users))
    ensures r.Ok? <==>
      ((forall i :: 0 <= i < |users| ==> users[i] in data && Credentials.UnmarshalUser(data[users[i]]).Ok?)
      && Common.ReadUser in data && Credentials.UnmarshalUser(data[Common.ReadUser]).Ok?)
  {
    match WriteEntries(users, PasswordOf(data), OrgIDOf(lc))
    case Err(e) => Err(e)
    case Ok(entries) =>
      match Credentials.GetPassword(data, Common.ReadUser)
      case Err(e) => Err(e)
      case Ok(p) => Ok(entries + [User(Common.ReadUser, p, ReadOrgID(users))])
  }

  /** Reference definition of the generated secret. */
  function ProxyAuthSecret(lc: Clusters.LoggedCluster, data: map<string, string>, users: seq<string>): (r: Result<Secret>)
    ensures r.Ok? ==> r.value.meta == Meta && r.value.data.Keys == {"authn.yaml"}
    ensures r.Ok? ==> AuthUsers(lc, data, users).Ok? && MarshalAuthConfig(AuthUsers(lc, data, users).value).Ok?
    ensures r.Ok? ==> r.value.data["authn.yaml"] == MarshalAuthConfig(AuthUsers(lc, data, users).value).value
    ensures AuthUsers(lc, data, users).Err? ==> r == Err(AuthUsers(lc, data, users).error)
  {
    match AuthUsers(lc, data, users)
    case Err(e) => Err(e)
    case Ok(us) =>
      match MarshalAuthConfig(us)
      case Err(e) => Err(e)
      case Ok(v) => Ok(Secret(Meta, map["authn.yaml" := v]))
  }

  /** `GenerateProxyAuthSecret`, the credential map iterated in `order`. */
  method GenerateProxyAuthSecret(lc: Clusters.LoggedCluster, data: map<string, string>, order: seq<string>) returns (r: Result<Secret>)
    requires Enumerates(order, data.Keys)
    ensures r == ProxyAuthSecret(lc, data, WriteUsers(order))
  {
    var users := ListWriteUsers(data, order);
    var entries, readOrgID := CollectWriteUsers(users, PasswordOf(data), OrgIDOf(lc));
    if entries.Err? {
      return Err(entries.error);
    }
    var readPassword := Credentials.GetPassword(data, Common.ReadUser);
    if readPassword.Err? {
      return Err(readPassword.error);
    }
    var all := entries.value + [User(Common.ReadUser, readPassword.value, readOrgID)];
    assert AuthUsers(lc, data, users) == Ok(all);
    var v := MarshalAuthConfig(all);
    if v.Err? {
      return Err(v.error);
    }
    var secret := Secret(Meta, map[]);
    r := Ok(secret.(data := secret.data["authn.yaml" := v.value]));
  }
}

/**
 * pkg/resource/loki-auth: the auth config of loki-multi-tenant-proxy, built
 * from the old-style "<name>user" credential entries, and the label toggle
 * that makes the proxy reload it.
 */
module LokiAuth {
  import opened Kube
  import opened Strings
  import opened Client
  import opened MultiTenantProxy

  const SecretName := "loki-multi-tenant-proxy-auth-config"
  const SecretNamespace := "loki"
  const DeploymentName := "loki-multi-tenant-proxy"
  const DeploymentNamespace := "loki"

  /** `loggingcredentials.GetPass` and `GetLogin`, which this code calls but which are not part of this model. */
  const GetPass: (map<string, string>, string) -> Result<string>
  const GetLogin: (map<string, string>, string) -> Result<string>

  const MarshalValues: seq<User> -> Result<string>

  const Meta := ObjectMeta(SecretName, SecretNamespace, AddCommonLabels(map[]))

  /** A key names a write user when it ends in "user" and is not "readuser". */
  predicate IsWriteKey(k: string)
  {
    HasSuffix(k, "user") && k != "readuser"
  }

  /** Reference definition of `listWriteUsers`: the write keys in `order`, "user" trimmed off. */
  function WriteUsers(order: seq<string>): (r: seq<string>)
    ensures forall u :: u in r <==> exists k :: k in order && IsWriteKey(k) && u == TrimSuffix(k, "user")
  {
    if |order| == 0 then []
    else
      var k := order[|order| - 1];
      var init := WriteUsers(order[..|order| - 1]);
      assert forall x :: x in order <==> x in order[..|order| - 1] || x == k;
      if IsWriteKey(k) then init + [TrimSuffix(k, "user")] else init
  }

  /** A key that is exactly "user" lists the empty user; keys not ending in "user" are never listed. */
  lemma WriteUsersEdgeCases(order: seq<string>)
    ensures "user" in order ==> "" in WriteUsers(order)
    ensures forall u :: u in WriteUsers(order) ==> u + "user" in order && u != "read"
  {
    if "user" in order {
      assert IsWriteKey("user") && TrimSuffix("user", "user") == "";
    }
    forall u | u in WriteUsers(order)
      ensures u + "user" in order && u != "read"
    {
      var k :| k in order && IsWriteKey(k) && u == TrimSuffix(k, "user");
      assert u + "user" == k;
    }
  }

  /** `listWriteUsers`. */
  method ListWriteUsers(data: map<string, string>, order: seq<string>) returns (users: seq<string>)
    requires Enumerates(order, data.Keys)
    ensures users == WriteUsers(order)
  {
    users := [];
    for i := 0 to |order|
      invariant users == WriteUsers(order[..i])
    {
      assert order[..i + 1][..i] == order[..i];
      var trimmed := TrimSuffix(order[i], "user");
      TrimSuffixChanges(order[i], "user", "read");
      if trimmed != order[i] && trimmed != "read" {
        users := users + [trimmed];
      }
    }
    assert order[..|order|] == order;
  }

  function PasswordOf(data: map<string, string>): string -> Result<string>
  {
    u => GetPass(data, u)
  }

  /** Each write user is its own tenant. */
  function SelfOrgID(): string -> string
  {
    u => u
  }

  /** Reference definition of the users list: write users in order, each its own tenant, then the read user. */
  function AuthUsers(data: map<string, string>, users: seq<string>): (r: Result<seq<User>>)
    ensures r.Ok? <==> (forall i :: 0 <= i < |users| ==> GetPass(data, users[i]).Ok?) && GetLogin(data, "read").Ok? && GetPass(data, "read").Ok?
    ensures r.Ok? ==> |r.value| == |users| + 1
    ensures r.Ok? ==> forall i :: 0 <= i < |users| ==> GetPass(data, users[i]).Ok? && r.value[i] == User(users[i], GetPass(data, users[i]).value, users[i])
    ensures r.Ok? ==> GetLogin(data, "read").Ok? && GetPass(data, "read").Ok?
    ensures r.Ok? ==> r.value[|users|] == User(GetLogin(data, "read").value, GetPass(data, "read").value, ReadOrgID(users))
  {
    match WriteEntries(users, PasswordOf(data), SelfOrgID())
    case Err(e) => Err(e)
    case Ok(entries) =>
      match GetLogin(data, "read")
      case Err(e) => Err(e)
      case Ok(login) =>
        match GetPass(data, "read")
        case Err(e) => Err(e)
        case Ok(p) => Ok(entries + [User(login, p, ReadOrgID(users))])
  }

  function LokiAuthSecret(data: map<string, string>, users: seq<string>): (r: Result<Secret>)
    ensures r.Ok? ==> r.value.meta == Meta && r.value.data.Keys == {"authn.yaml"}
    ensures r.Ok? ==> AuthUsers(data, users).Ok? && MarshalValues(AuthUsers(data, users).value).Ok?
    ensures r.Ok? ==> r.value.data["authn.yaml"] == MarshalValues(AuthUsers(data, users).value).value
    ensures AuthUsers(data, users).Err? ==> r == Err(AuthUsers(data, users).error)
  {
    match AuthUsers(data, users)
    case Err(e) => Err(e)
    case Ok(us) =>
      match MarshalValues(us)
      case Err(e) => Err(e)
      case Ok(v) => Ok(Secret(Meta, map["authn.yaml" := v]))
  }

  /** `GenerateLokiAuthSecret`, the credential map iterated in `order`. */
  method GenerateLokiAuthSecret(data: map<string, string>, order: seq<string>) returns (r: Result<Secret>)
    requires Enumerates(order, data.Keys)
    ensures r == LokiAuthSecret(data, WriteUsers(order))
  {
    var users := ListWriteUsers(data, order);
    var entries, readOrgID := CollectWriteUsers(users, PasswordOf(data), SelfOrgID());
    if entries.Err? {
      return Err(entries.error);
    }
    var readUser := GetLogin(data, "read");
    if readUser.Err? {
      return Err(readUser.error);
    }
    var readPassword := GetPass(data, "read");
    if readPassword.Err? {
      return Err(readPassword.error);
    }
    var v := MarshalValues(entries.value + [User(readUser.value, readPassword.value, readOrgID)]);
    if v.Err? {
      return Err(v.error);
    }
    r := Ok(Secret(Meta, map["authn.yaml" := v.value]));
  }

  const TriggerRedeployLabel := "app.giantswarm.io/triggerredeploy"

  /** A Deployment, reduced to its pod template's labels. */
  datatype Deployment = Deployment(meta: ObjectMeta, templateLabels: Labels)

  /** The redeploy label flipped: "tick" becomes "tock", anything else (absent included) becomes "tick". */
  function Toggled(labels: Labels): (r: Labels)
    ensures r.Keys == labels.Keys + {TriggerRedeployLabel}
    ensures forall k :: k in labels && k != TriggerRedeployLabel ==> r[k] == labels[k]
    ensures TriggerRedeployLabel in labels && labels[TriggerRedeployLabel] == "tick" ==> r[TriggerRedeployLabel] == "tock"
    ensures !(TriggerRedeployLabel in labels && labels[TriggerRedeployLabel] == "tick") ==> r[TriggerRedeployLabel] == "tick"
  {
    if TriggerRedeployLabel in labels && labels[TriggerRedeployLabel] == "tick" then labels[TriggerRedeployLabel := "tock"]
    else labels[TriggerRedeployLabel := "tick"]
  }

  /** Every reload changes the pod template, so the proxy is always rolled; two reloads from "tick" come back to it. */
  lemma ToggleAlwaysChanges(labels: Labels)
    ensures TriggerRedeployLabel !in labels || Toggled(labels)[TriggerRedeployLabel] != labels[TriggerRedeployLabel]
    ensures TriggerRedeployLabel in labels && labels[TriggerRedeployLabel] == "tick" ==> Toggled(Toggled(labels)) == labels
  {
    if TriggerRedeployLabel in labels && labels[TriggerRedeployLabel] == "tick" {
      assert Toggled(Toggled(labels)) == labels[TriggerRedeployLabel := "tick"];
    }
  }

  /** `ReloadLokiProxy`: reads the proxy's deployment, flips the redeploy label, writes it back. */
  method ReloadLokiProxy(deployments: Store<Deployment>) returns (err: Option<Error>)
    modifies deployments
    ensures deployments.failing == old(deployments.failing)
    ensures var key := NamespacedName(DeploymentName, DeploymentNamespace);
      if (GetOp, key) in old(deployments.failing) || key !in old(deployments.objects) then
        && err == Some(if (GetOp, key) in old(deployments.failing) then ApiError else NotFound)
        && deployments.objects == old(deployments.objects) && deployments.writes == old(deployments.writes)
      else
        var d := old(deployments.objects)[key];
        && deployments.writes == old(deployments.writes) + [Write(UpdateOp, key)]
        && (err.None? <==> (UpdateOp, key) !in old(deployments.failing))
        && deployments.objects == (if err.None? then old(deployments.objects)[key := d.(templateLabels := Toggled(d.templateLabels))] else old(deployments.objects))
  {
    var key := NamespacedName(DeploymentName, DeploymentNamespace);
    var current := deployments.Get(key);
    if current.Err? {
      return Some(current.error);
    }
    var labels := current.value.templateLabels;
    if TriggerRedeployLabel in labels {
      if labels[TriggerRedeployLabel] == "tick" {
        labels := labels[TriggerRedeployLabel := "tock"];
      } else {
        labels := labels[TriggerRedeployLabel := "tick"];
      }
    } else {
      labels := labels[TriggerRedeployLabel := "tick"];
    }
    err := deployments.Update(key, current.value.(templateLabels := labels));
  }
}

/**
 * The ingress basic-auth secrets: a map from user to the bcrypt hash of its
 * password (pkg/resource/ingress-auth-secret for every credential user,
 * pkg/resource/loki-ingress-auth-secret and tempo-ingress-auth-secret for
 * the write users).
 */
module IngressAuth {
  import opened Kube
  import opened MultiTenantProxy
  import Common
  import Credentials

  /** `bcrypt.GenerateFromPassword` at the default cost; a foreign library. */
  const Bcrypt: string -> Result<string>

  /** A user's stored password, hashed. */
  function HashOf(data: map<string, string>, u: string): Result<string>
  {
    match Credentials.GetPassword(data, u)
    case Err(e) => Err(e)
    case Ok(p) => Bcrypt(p)
  }

  /** Reference definition of the hashing loop: every listed user mapped to its hash, or the first error. */
  function Hashes(data: map<string, string>, users: seq<string>): (r: Result<map<string, string>>)
    ensures r.Ok? <==> forall i :: 0 <= i < |users| ==> HashOf(data, users[i]).Ok?
    ensures r.Ok? ==> r.value.Keys == set u | u in users
    ensures r.Ok? ==> forall u :: u in users ==> r.value[u] == HashOf(data, u).value
  {
    if |users| == 0 then Ok(map[])
    else
      var u := users[|users| - 1];
      match Hashes(data, users[..|users| - 1])
      case Err(e) => Err(e)
      case Ok(m) =>
        match HashOf(data, u)
        case Err(e) => Err(e)
        case Ok(h) =>
          assert forall x :: x in users <==> x in users[..|users| - 1] || x == u;
          Ok(m[u := h])
  }

  lemma {:induction false} HashesStaysFailed(data: map<string, string>, users: seq<string>, i: nat)
    requires i <= |users| && Hashes(data, users[..i]).Err?
    ensures Hashes(data, users) == Hashes(data, users[..i])
    decreases |users| - i
  {
    if i < |users| {
      assert users[..|users| - 1][..i] == users[..i];
      HashesStaysFailed(data, users[..|users| - 1], i);
    } else {
      assert users[..i] == users;
    }
  }

  /** The loop filling the `users` map, stopping at the first lookup or hashing error. */
  method HashUsers(data: map<string, string>, users: seq<string>) returns (r: Result<map<string, string>>)
    ensures r == Hashes(data, users)
  {
    var hashed: map<string, string> := map[];
    for i := 0 to |users|
      invariant Hashes(data, users[..i]) == Ok(hashed)
    {
      assert users[..i + 1][..i] == users[..i];
      var password := Credentials.GetPassword(data, users[i]);
      if password.Err? {
        HashesStaysFailed(data, users, i + 1);
        return Err(password.error);
      }
      var h := Bcrypt(password.value);
      if h.Err? {
        HashesStaysFailed(data, users, i + 1);
        return Err(h.error);
      }
      hashed := hashed[users[i] := h.value];
    }
    assert users[..|users|] == users;
    r := Ok(hashed);
  }

  /** `ingressAuthSecretMetadata`: exactly the given name and namespace, common labels. */
  function SecretMeta(name: string, namespace: string): (m: ObjectMeta)
    ensures m.name == name && m.namespace == namespace && m.labels == CommonLabels
  {
    ObjectMeta(name, namespace, AddCommonLabels(map[]))
  }

  /** `listUsers`: every credential key, the read user included. */
  method ListUsers(data: map<string, string>, order: seq<string>) returns (users: seq<string>)
    requires Enumerates(order, data.Keys)
    ensures users == order
    ensures (set u | u in users) == data.Keys
  {
    users := [];
    for i := 0 to |order|
      invariant users == order[..i]
    {
      users := users + [order[i]];
    }
  }

  /** `generateIngressAuthSecret`: the hashed users have exactly the credential keys. */
  method GenerateIngressAuthSecret(data: map<string, string>, order: seq<string>) returns (r: Result<map<string, string>>)
    requires Enumerates(order, data.Keys)
    ensures r == Hashes(data, order)
    ensures r.Ok? ==> r.value.Keys == data.Keys
  {
    var users := ListUsers(data, order);
    r := HashUsers(data, users);
  }

  /** `listWriteUsers` of the Loki and Tempo ingress secrets: every credential key but the read user. */
  method ListWriteUsers(data: map<string, string>, order: seq<string>) returns (users: seq<string>)
    requires Enumerates(order, data.Keys)
    ensures forall u :: u in users <==> u in data && u != Common.ReadUser
    ensures forall i, j :: 0 <= i < j < |users| ==> users[i] != users[j]
  {
    users := [];
    for i := 0 to |order|
      invariant forall u :: u in users <==> u in order[..i] && u != Common.ReadUser
      invariant forall a, b :: 0 <= a < b < |users| ==> users[a] != users[b]
    {
      assert order[..i + 1] == order[..i] + [order[i]];
      assert order[i] !in order[..i] by {
        assert forall k :: 0 <= k < i ==> order[k] != order[i];
      }
      if order[i] != Common.ReadUser {
        users := users + [order[i]];
      }
    }
    assert order[..|order|] == order;
  }

  /** `generateLokiIngressAuthSecret` and `generatetempoIngressAuthSecret`: the write users, hashed. */
  method GenerateWriteUsersAuthSecret(data: map<string, string>, order: seq<string>) returns (r: Result<map<string, string>>)
    requires Enumerates(order, data.Keys)
    ensures r.Ok? ==> r.value.Keys == data.Keys - {Common.ReadUser}
    ensures r.Ok? <==> forall u :: u in data && u != Common.ReadUser ==> HashOf(data, u).Ok?
    ensures r.Ok? ==> forall u :: u in r.value ==> HashOf(data, u).Ok? && r.value[u] == HashOf(data, u).value
  {
    var users := ListWriteUsers(data, order);
    r := HashUsers(data, users);
    assert r.Ok? <==> forall i :: 0 <= i < |users| ==> HashOf(data, users[i]).Ok?;
  }

  const LokiIngressAuthMeta := SecretMeta("loki-ingress-auth", "loki")

  const TempoIngressAuthMeta := SecretMeta("tempo-ingress-auth", "tempo")
}
