/**
 * The AWS IAM API as the Loki role adapter sees it: roles with a trust
 * policy, attached managed policies and inline policies, and instance
 * profiles holding roles. Which calls fail, and with what, is part of the
 * service's state, so every error path of the adapter can be reached; each
 * call is appended to `log`.
 */
module Iam {
  import Kube

  /**
   * A role: its trust policy, the ARNs of its attached managed policies, and
   * the names of its inline policies with each one's document.
   */
  datatype Role = Role(description: string, trust: string, attached: seq<string>, inline: seq<string>,
                       documents: map<string, string>)

  /** The IAM error codes the adapter tells apart, and a stand-in for the rest. */
  datatype ApiError = NoSuchEntity | EntityAlreadyExists | DeleteConflict | OtherApiError

  /** An error the API answered with, or one that never reached it (a transport failure). */
  datatype CallError = Api(code: ApiError) | Transport

  datatype Reply<T> = Ok(value: T) | Err(error: CallError)

  datatype Call =
    | GetRole(role: string)
    | CreateRole(role: string, trust: string, description: string)
    | UpdateAssumeRolePolicy(role: string, trust: string)
    | PutRolePolicy(role: string, name: string, document: string)
    | ListAttachedRolePolicies(role: string)
    | DetachRolePolicy(role: string, arn: string)
    | ListRolePolicies(role: string)
    | DeleteRolePolicy(role: string, name: string)
    | RemoveRoleFromInstanceProfile(profile: string, role: string)
    | DeleteInstanceProfile(profile: string)
    | DeleteRole(role: string)

  /** No value occurs twice. */
  predicate Distinct(s: seq<string>)
  {
    |s| == 0 || (s[0] !in s[1..] && Distinct(s[1..]))
  }

  /** In a list without repeats, no value occurs before its own position. */
  lemma {:induction false} NotBefore(s: seq<string>, j: int)
    requires Distinct(s) && 0 <= j < |s|
    ensures s[j] !in s[..j]
  {
    if j > 0 {
      NotBefore(s[1..], j - 1);
      assert s[..j] == [s[0]] + s[1..][..j - 1];
      assert s[j] == s[1..][j - 1];
    }
  }

  /** `s` without any occurrence of `x`. */
  function Without(s: seq<string>, x: string): (r: seq<string>)
    ensures forall y :: y in r <==> y in s && y != x
  {
    if |s| == 0 then []
    else if s[0] == x then Without(s[1..], x)
    else [s[0]] + Without(s[1..], x)
  }

  class IamClient {
    var roles: map<string, Role>
    var profiles: map<string, set<string>>
    var failing: map<Call, CallError>
    var log: seq<Call>

    constructor (roles: map<string, Role>, profiles: map<string, set<string>>, failing: map<Call, CallError>)
      ensures this.roles == roles && this.profiles == profiles && this.failing == failing && log == []
    {
      this.roles := roles;
      this.profiles := profiles;
      this.failing := failing;
      log := [];
    }

    /** Some instance profile holds `role`; IAM refuses to delete such a role. */
    predicate InSomeProfile(role: string)
      reads this
    {
      exists p :: p in profiles && role in profiles[p]
    }

    method GetRole(role: string) returns (r: Reply<Role>)
      modifies this
      ensures roles == old(roles) && profiles == old(profiles) && failing == old(failing)
      ensures log == old(log) + [Call.GetRole(role)]
      ensures Call.GetRole(role) in failing ==> r == Err(failing[Call.GetRole(role)])
      ensures Call.GetRole(role) !in failing && role in roles ==> r == Ok(roles[role])
      ensures Call.GetRole(role) !in failing && role !in roles ==> r == Err(Api(NoSuchEntity))
    {
      log := log + [Call.GetRole(role)];
      if Call.GetRole(role) in failing {
        r := Err(failing[Call.GetRole(role)]);
      } else if role in roles {
        r := Ok(roles[role]);
      } else {
        r := Err(Api(NoSuchEntity));
      }
    }

    method CreateRole(role: string, trust: string, description: string) returns (err: Kube.Option<CallError>)
      modifies this
      ensures profiles == old(profiles) && failing == old(failing)
      ensures log == old(log) + [Call.CreateRole(role, trust, description)]
      ensures Call.CreateRole(role, trust, description) in failing ==>
        err == Kube.Some(failing[Call.CreateRole(role, trust, description)]) && roles == old(roles)
      ensures Call.CreateRole(role, trust, description) !in failing && role in old(roles) ==>
        err == Kube.Some(Api(EntityAlreadyExists)) && roles == old(roles)
      ensures Call.CreateRole(role, trust, description) !in failing && role !in old(roles) ==>
        err.None? && roles == old(roles)[role := Role(description, trust, [], [], map[])]
    {
      log := log + [Call.CreateRole(role, trust, description)];
      if Call.CreateRole(role, trust, description) in failing {
        err := Kube.Some(failing[Call.CreateRole(role, trust, description)]);
      } else if role in roles {
        err := Kube.Some(Api(EntityAlreadyExists));
      } else {
        roles := roles[role := Role(description, trust, [], [], map[])];
        err := Kube.None;
      }
    }

    method UpdateAssumeRolePolicy(role: string, trust: string) returns (err: Kube.Option<CallError>)
      modifies this
      ensures profiles == old(profiles) && failing == old(failing)
      ensures log == old(log) + [Call.UpdateAssumeRolePolicy(role, trust)]
      ensures Call.UpdateAssumeRolePolicy(role, trust) in failing ==>
        err == Kube.Some(failing[Call.UpdateAssumeRolePolicy(role, trust)]) && roles == old(roles)
      ensures Call.UpdateAssumeRolePolicy(role, trust) !in failing && role !in old(roles) ==>
        err == Kube.Some(Api(NoSuchEntity)) && roles == old(roles)
      ensures Call.UpdateAssumeRolePolicy(role, trust) !in failing && role in old(roles) ==>
        err.None? && roles == old(roles)[role := old(roles)[role].(trust := trust)]
    {
      log := log + [Call.UpdateAssumeRolePolicy(role, trust)];
      if Call.UpdateAssumeRolePolicy(role, trust) in failing {
        err := Kube.Some(failing[Call.UpdateAssumeRolePolicy(role, trust)]);
      } else if role !in roles {
        err := Kube.Some(Api(NoSuchEntity));
      } else {
        roles := roles[role := roles[role].(trust := trust)];
        err := Kube.None;
      }
    }

    /** Adds the inline policy `name`, or replaces the document of the one already there. */
    method PutRolePolicy(role: string, name: string, document: string) returns (err: Kube.Option<CallError>)
      modifies this
      ensures profiles == old(profiles) && failing == old(failing)
      ensures log == old(log) + [Call.PutRolePolicy(role, name, document)]
      ensures Call.PutRolePolicy(role, name, document) in failing ==>
        err == Kube.Some(failing[Call.PutRolePolicy(role, name, document)]) && roles == old(roles)
      ensures Call.PutRolePolicy(role, name, document) !in failing && role !in old(roles) ==>
        err == Kube.Some(Api(NoSuchEntity)) && roles == old(roles)
      ensures Call.PutRolePolicy(role, name, document) !in failing && role in old(roles) ==>
        err.None? && roles == old(roles)[role := old(roles)[role].(inline := Without(old(roles)[role].inline, name) + [name],
                                                                   documents := old(roles)[role].documents[name := document])]
    {
      log := log + [Call.PutRolePolicy(role, name, document)];
      if Call.PutRolePolicy(role, name, document) in failing {
        err := Kube.Some(failing[Call.PutRolePolicy(role, name, document)]);
      } else if role !in roles {
        err := Kube.Some(Api(NoSuchEntity));
      } else {
        roles := roles[role := roles[role].(inline := Without(roles[role].inline, name) + [name],
                                            documents := roles[role].documents[name := document])];
        err := Kube.None;
      }
    }

    method ListAttachedRolePolicies(role: string) returns (r: Reply<seq<string>>)
      modifies this
      ensures roles == old(roles) && profiles == old(profiles) && failing == old(failing)
      ensures log == old(log) + [Call.ListAttachedRolePolicies(role)]
      ensures Call.ListAttachedRolePolicies(role) in failing ==> r == Err(failing[Call.ListAttachedRolePolicies(role)])
      ensures Call.ListAttachedRolePolicies(role) !in failing && role in roles ==> r == Ok(roles[role].attached)
      ensures Call.ListAttachedRolePolicies(role) !in failing && role !in roles ==> r == Err(Api(NoSuchEntity))
    {
      log := log + [Call.ListAttachedRolePolicies(role)];
      if Call.ListAttachedRolePolicies(role) in failing {
        r := Err(failing[Call.ListAttachedRolePolicies(role)]);
      } else if role in roles {
        r := Ok(roles[role].attached);
      } else {
        r := Err(Api(NoSuchEntity));
      }
    }

    method DetachRolePolicy(role: string, arn: string) returns (err: Kube.Option<CallError>)
      modifies this
      ensures profiles == old(profiles) && failing == old(failing)
      ensures log == old(log) + [Call.DetachRolePolicy(role, arn)]
      ensures Call.DetachRolePolicy(role, arn) in failing ==>
        err == Kube.Some(failing[Call.DetachRolePolicy(role, arn)]) && roles == old(roles)
      ensures Call.DetachRolePolicy(role, arn) !in failing && (role !in old(roles) || arn !in old(roles)[role].attached) ==>
        err == Kube.Some(Api(NoSuchEntity)) && roles == old(roles)
      ensures Call.DetachRolePolicy(role, arn) !in failing && role in old(roles) && arn in old(roles)[role].attached ==>
        err.None? && roles == old(roles)[role := old(roles)[role].(attached := Without(old(roles)[role].attached, arn))]
    {
      log := log + [Call.DetachRolePolicy(role, arn)];
      if Call.DetachRolePolicy(role, arn) in failing {
        err := Kube.Some(failing[Call.DetachRolePolicy(role, arn)]);
      } else if role !in roles || arn !in roles[role].attached {
        err := Kube.Some(Api(NoSuchEntity));
      } else {
        roles := roles[role := roles[role].(attached := Without(roles[role].attached, arn))];
        err := Kube.None;
      }
    }

    method ListRolePolicies(role: string) returns (r: Reply<seq<string>>)
      modifies this
      ensures roles == old(roles) && profiles == old(profiles) && failing == old(failing)
      ensures log == old(log) + [Call.ListRolePolicies(role)]
      ensures Call.ListRolePolicies(role) in failing ==> r == Err(failing[Call.ListRolePolicies(role)])
      ensures Call.ListRolePolicies(role) !in failing && role in roles ==> r == Ok(roles[role].inline)
      ensures Call.ListRolePolicies(role) !in failing && role !in roles ==> r == Err(Api(NoSuchEntity))
    {
      log := log + [Call.ListRolePolicies(role)];
      if Call.ListRolePolicies(role) in failing {
        r := Err(failing[Call.ListRolePolicies(role)]);
      } else if role in roles {
        r := Ok(roles[role].inline);
      } else {
        r := Err(Api(NoSuchEntity));
      }
    }

    method DeleteRolePolicy(role: string, name: string) returns (err: Kube.Option<CallError>)
      modifies this
      ensures profiles == old(profiles) && failing == old(failing)
      ensures log == old(log) + [Call.DeleteRolePolicy(role, name)]
      ensures Call.DeleteRolePolicy(role, name) in failing ==>
        err == Kube.Some(failing[Call.DeleteRolePolicy(role, name)]) && roles == old(roles)
      ensures Call.DeleteRolePolicy(role, name) !in failing && (role !in old(roles) || name !in old(roles)[role].inline) ==>
        err == Kube.Some(Api(NoSuchEntity)) && roles == old(roles)
      ensures Call.DeleteRolePolicy(role, name) !in failing && role in old(roles) && name in old(roles)[role].inline ==>
        err.None? && roles == old(roles)[role := old(roles)[role].(inline := Without(old(roles)[role].inline, name),
                                                                   documents := old(roles)[role].documents - {name})]
    {
      log := log + [Call.DeleteRolePolicy(role, name)];
      if Call.DeleteRolePolicy(role, name) in failing {
        err := Kube.Some(failing[Call.DeleteRolePolicy(role, name)]);
      } else if role !in roles || name !in roles[role].inline {
        err := Kube.Some(Api(NoSuchEntity));
      } else {
        roles := roles[role := roles[role].(inline := Without(roles[role].inline, name),
                                            documents := roles[role].documents - {name})];
        err := Kube.None;
      }
    }

    method RemoveRoleFromInstanceProfile(profile: string, role: string) returns (err: Kube.Option<CallError>)
      modifies this
      ensures roles == old(roles) && failing == old(failing)
      ensures log == old(log) + [Call.RemoveRoleFromInstanceProfile(profile, role)]
      ensures Call.RemoveRoleFromInstanceProfile(profile, role) in failing ==>
        err == Kube.Some(failing[Call.RemoveRoleFromInstanceProfile(profile, role)]) && profiles == old(profiles)
      ensures Call.RemoveRoleFromInstanceProfile(profile, role) !in failing
              && (profile !in old(profiles) || role !in old(profiles)[profile]) ==>
        err == Kube.Some(Api(NoSuchEntity)) && profiles == old(profiles)
      ensures Call.RemoveRoleFromInstanceProfile(profile, role) !in failing
              && profile in old(profiles) && role in old(profiles)[profile] ==>
        err.None? && profiles == old(profiles)[profile := old(profiles)[profile] - {role}]
    {
      log := log + [Call.RemoveRoleFromInstanceProfile(profile, role)];
      if Call.RemoveRoleFromInstanceProfile(profile, role) in failing {
        err := Kube.Some(failing[Call.RemoveRoleFromInstanceProfile(profile, role)]);
      } else if profile !in profiles || role !in profiles[profile] {
        err := Kube.Some(Api(NoSuchEntity));
      } else {
        profiles := profiles[profile := profiles[profile] - {role}];
        err := Kube.None;
      }
    }

    /** Refused while the profile still holds a role. */
    method DeleteInstanceProfile(profile: string) returns (err: Kube.Option<CallError>)
      modifies this
      ensures roles == old(roles) && failing == old(failing)
      ensures log == old(log) + [Call.DeleteInstanceProfile(profile)]
      ensures Call.DeleteInstanceProfile(profile) in failing ==>
        err == Kube.Some(failing[Call.DeleteInstanceProfile(profile)]) && profiles == old(profiles)
      ensures Call.DeleteInstanceProfile(profile) !in failing && profile !in old(profiles) ==>
        err == Kube.Some(Api(NoSuchEntity)) && profiles == old(profiles)
      ensures Call.DeleteInstanceProfile(profile) !in failing && profile in old(profiles) && old(profiles)[profile] != {} ==>
        err == Kube.Some(Api(DeleteConflict)) && profiles == old(profiles)
      ensures Call.DeleteInstanceProfile(profile) !in failing && profile in old(profiles) && old(profiles)[profile] == {} ==>
        err.None? && profiles == old(profiles) - {profile}
    {
      log := log + [Call.DeleteInstanceProfile(profile)];
      if Call.DeleteInstanceProfile(profile) in failing {
        err := Kube.Some(failing[Call.DeleteInstanceProfile(profile)]);
      } else if profile !in profiles {
        err := Kube.Some(Api(NoSuchEntity));
      } else if profiles[profile] != {} {
        err := Kube.Some(Api(DeleteConflict));
      } else {
        profiles := profiles - {profile};
        err := Kube.None;
      }
    }

    /** Refused while the role still has attached or inline policies, or sits in an instance profile. */
    method DeleteRole(role: string) returns (err: Kube.Option<CallError>)
      modifies this
      ensures profiles == old(profiles) && failing == old(failing)
      ensures log == old(log) + [Call.DeleteRole(role)]
      ensures Call.DeleteRole(role) in failing ==> err == Kube.Some(failing[Call.DeleteRole(role)]) && roles == old(roles)
      ensures Call.DeleteRole(role) !in failing && role !in old(roles) ==>
        err == Kube.Some(Api(NoSuchEntity)) && roles == old(roles)
      ensures Call.DeleteRole(role) !in failing && role in old(roles)
              && (old(roles)[role].attached != [] || old(roles)[role].inline != [] || InSomeProfile(role)) ==>
        err == Kube.Some(Api(DeleteConflict)) && roles == old(roles)
      ensures Call.DeleteRole(role) !in failing && role in old(roles)
              && old(roles)[role].attached == [] && old(roles)[role].inline == [] && !InSomeProfile(role) ==>
        err.None? && roles == old(roles) - {role}
    {
      log := log + [Call.DeleteRole(role)];
      if Call.DeleteRole(role) in failing {
        err := Kube.Some(failing[Call.DeleteRole(role)]);
      } else if role !in roles {
        err := Kube.Some(Api(NoSuchEntity));
      } else if roles[role].attached != [] || roles[role].inline != [] || InSomeProfile(role) {
        err := Kube.Some(Api(DeleteConflict));
      } else {
        roles := roles - {role};
        err := Kube.None;
      }
    }
  }
}

/**
 * pkg/resource/loki-role/iam.go: the adapter that keeps the Loki role of a
 * CAPA management cluster in IAM, creating or updating it with its trust and
 * inline S3 policies, and deleting it with everything that holds it.
 */
module LokiRole {
  import Kube
  import Clusters
  import opened Iam
  import opened LokiRoleTemplates

  const RoleDescription := "Role for Giant Swarm managed Loki"

  /** `GetRole` answers "no such role", whether the role is missing or the failure injected says so. */
  predicate SeenAbsent(failing: map<Call, CallError>, roles: map<string, Role>, roleName: string)
  {
    if Call.GetRole(roleName) in failing then failing[Call.GetRole(roleName)] == Api(NoSuchEntity)
    else roleName !in roles
  }

  /**
   * The instance profiles let the role go once the profile of its own name is
   * emptied: no other profile holds it, and that profile holds nothing else.
   */
  predicate ProfilesAllowDeletion(profiles: map<string, set<string>>, roleName: string)
  {
    && (forall p :: p in profiles && roleName in profiles[p] ==> p == roleName)
    && (roleName in profiles ==> profiles[roleName] <= {roleName})
  }

  /** `current` holds exactly the values of `listed` that are not in `done`. */
  ghost predicate Remaining(current: seq<string>, listed: seq<string>, done: seq<string>)
  {
    forall y :: y in current <==> y in listed && y !in done
  }

  /** With no repeats in the list, the `i`-th listed value is still there after the first `i` removals. */
  lemma NextStillThere(current: seq<string>, listed: seq<string>, i: int)
    requires 0 <= i < |listed| && Distinct(listed) && Remaining(current, listed, listed[..i])
    ensures listed[i] in current
  {
    NotBefore(listed, i);
  }

  /** Removing the next listed value keeps the remainder exact. */
  lemma RemovingNextKeepsRemaining(current: seq<string>, listed: seq<string>, i: int)
    requires 0 <= i < |listed| && Remaining(current, listed, listed[..i])
    ensures Remaining(Without(current, listed[i]), listed, listed[..i + 1])
  {
    assert listed[..i + 1] == listed[..i] + [listed[i]];
  }

  /** Once every listed value is removed, nothing remains. */
  lemma NothingRemaining(current: seq<string>, listed: seq<string>)
    requires Remaining(current, listed, listed[..|listed|])
    ensures current == []
  {
    assert listed[..|listed|] == listed;
    HeadIsMember(current);
  }

  /** A non-empty list holds its first value. */
  lemma HeadIsMember(s: seq<string>)
    ensures |s| == 0 || s[0] in s
  {
  }

  class IamAdapter {
    const accountId: string
    const cloudDomain: string
    const client: IamClient

    /** `NewIamService`. */
    constructor (accountId: string, cloudDomain: string, client: IamClient)
      ensures this.accountId == accountId && this.cloudDomain == cloudDomain && this.client == client
    {
      this.accountId := accountId;
      this.cloudDomain := cloudDomain;
      this.client := client;
    }

    /** `GetRole`: a missing role is no error but no role. */
    method GetRole(roleName: string) returns (r: Reply<Kube.Option<Role>>)
      modifies client
      ensures client.roles == old(client.roles) && client.profiles == old(client.profiles)
      ensures client.failing == old(client.failing) && client.log == old(client.log) + [Call.GetRole(roleName)]
      ensures r == Ok(Kube.None) <==> SeenAbsent(client.failing, client.roles, roleName)
      ensures r.Ok? && r.value.Some? ==> Call.GetRole(roleName) !in client.failing && roleName in client.roles
      ensures r.Ok? && r.value.Some? ==> r.value.value == client.roles[roleName]
      ensures r.Err? ==> Call.GetRole(roleName) in client.failing && r.error == client.failing[Call.GetRole(roleName)]
      ensures r.Err? ==> r.error != Api(NoSuchEntity)
    {
      var output := client.GetRole(roleName);
      if output.Err? {
        if output.error == Api(NoSuchEntity) {
          return Ok(Kube.None);
        }
        return Err(output.error);
      }
      r := Ok(Kube.Some(output.value));
    }

    /**
     * The body of `ConfigureRole` once the role's name and documents are
     * rendered: create the role with the trust policy when `GetRole` finds
     * none, otherwise replace its trust policy; then put the inline role
     * policy, named after the role. Each call is made only when the one
     * before it succeeded.
     */
    method Configure(roleName: string, trust: string, rolePolicy: string) returns (err: Kube.Option<CallError>)
      modifies client
      ensures client.failing == old(client.failing) && client.profiles == old(client.profiles)
      ensures |client.log| > |old(client.log)| && client.log[..|old(client.log)|] == old(client.log)
      ensures client.log[|old(client.log)|] == Call.GetRole(roleName)
      ensures SeenAbsent(client.failing, old(client.roles), roleName) ==>
        |client.log| > |old(client.log)| + 1 && client.log[|old(client.log)| + 1] == Call.CreateRole(roleName, trust, RoleDescription)
      ensures Call.GetRole(roleName) !in client.failing && roleName in old(client.roles) ==>
        |client.log| > |old(client.log)| + 1 && client.log[|old(client.log)| + 1] == Call.UpdateAssumeRolePolicy(roleName, trust)
      ensures Call.GetRole(roleName) in client.failing && client.failing[Call.GetRole(roleName)] != Api(NoSuchEntity) ==>
        err == Kube.Some(client.failing[Call.GetRole(roleName)]) && |client.log| == |old(client.log)| + 1
      ensures roleName in client.roles ==> client.roles == old(client.roles)[roleName := client.roles[roleName]]
      ensures roleName !in client.roles ==> client.roles == old(client.roles)
      ensures err.None? && roleName !in old(client.roles) ==>
        roleName in client.roles && client.roles[roleName] == Role(RoleDescription, trust, [], [roleName], map[roleName := rolePolicy])
      ensures err.None? && roleName in old(client.roles) ==>
        && roleName in client.roles
        && client.roles[roleName] == old(client.roles)[roleName].(trust := trust,
             inline := Without(old(client.roles)[roleName].inline, roleName) + [roleName],
             documents := old(client.roles)[roleName].documents[roleName := rolePolicy])
      ensures client.failing == map[] ==> err.None?
    {
      var role := GetRole(roleName);
      if role.Err? {
        return Kube.Some(role.error);
      }
      if role.value.None? {
        err := client.CreateRole(roleName, trust, RoleDescription);
        if err.Some? {
          return;
        }
      } else {
        err := client.UpdateAssumeRolePolicy(roleName, trust);
        if err.Some? {
          return;
        }
      }
      err := client.PutRolePolicy(roleName, roleName, rolePolicy);
    }

    /**
     * `ConfigureRole`: the role named after the installation ends up with the
     * trust policy and the role policy filled in for this cluster.
     */
    method ConfigureRole(lc: Clusters.LoggedCluster) returns (err: Kube.Option<CallError>)
      modifies client
      ensures client.failing == old(client.failing) && client.profiles == old(client.profiles)
      ensures RoleName(lc) in client.roles ==> client.roles == old(client.roles)[RoleName(lc) := client.roles[RoleName(lc)]]
      ensures RoleName(lc) !in client.roles ==> client.roles == old(client.roles)
      ensures err.None? ==> var name := RoleName(lc);
        && name in client.roles
        && client.roles[name].trust == TemplateTrustPolicy(lc, accountId, cloudDomain)
        && name in client.roles[name].inline && name in client.roles[name].documents
        && client.roles[name].documents[name] == TemplateRolePolicy(lc)
        && (name in old(client.roles) ==> client.roles[name].attached == old(client.roles)[name].attached)
      ensures client.failing == map[] ==> err.None?
    {
      err := Configure(RoleName(lc), TemplateTrustPolicy(lc, accountId, cloudDomain), TemplateRolePolicy(lc));
    }
  
    /** The first half of `cleanAttachedPolicies`: detach every managed policy the role lists. */
    method DetachAttachedPolicies(roleName: string) returns (err: Kube.Option<CallError>)
      modifies client
      ensures client.failing == old(client.failing) && client.profiles == old(client.profiles)
      ensures roleName !in old(client.roles) ==> client.roles == old(client.roles) && err.Some?
      ensures roleName in old(client.roles) ==>
        && roleName in client.roles
        && client.roles == old(client.roles)[roleName := old(client.roles)[roleName].(attached := client.roles[roleName].attached)]
      ensures err.None? ==> roleName in client.roles && client.roles[roleName].attached == []
      ensures client.failing == map[] && roleName in old(client.roles) && Distinct(old(client.roles)[roleName].attached) ==>
        err.None?
    {
      ghost var clean := client.failing == map[] && roleName in client.roles && Distinct(client.roles[roleName].attached);
      var listed := client.ListAttachedRolePolicies(roleName);
      if listed.Err? {
        return Kube.Some(listed.error);
      }
      var arns := listed.value;
      ghost var role := client.roles[roleName];
      ghost var current := arns;
      var i := 0;
      while i < |arns|
        invariant 0 <= i <= |arns|
        invariant client.failing == old(client.failing) && client.profiles == old(client.profiles)
        invariant client.roles == old(client.roles)[roleName := role.(attached := current)]
        invariant Remaining(current, arns, arns[..i])
      {
        if clean {
          NextStillThere(current, arns, i);
        }
        err := client.DetachRolePolicy(roleName, arns[i]);
        if err.Some? {
          return;
        }
        RemovingNextKeepsRemaining(current, arns, i);
        current := Without(current, arns[i]);
        i := i + 1;
      }
      NothingRemaining(current, arns);
      err := Kube.None;
    }

    /** The second half of `cleanAttachedPolicies`: delete every inline policy the role lists. */
    method DeleteInlinePolicies(roleName: string) returns (err: Kube.Option<CallError>)
      modifies client
      ensures client.failing == old(client.failing) && client.profiles == old(client.profiles)
      ensures roleName !in old(client.roles) ==> client.roles == old(client.roles) && err.Some?
      ensures roleName in old(client.roles) ==>
        && roleName in client.roles
        && client.roles == old(client.roles)[roleName := old(client.roles)[roleName].(inline := client.roles[roleName].inline,
                                                                                     documents := client.roles[roleName].documents)]
      ensures err.None? ==> roleName in client.roles && client.roles[roleName].inline == []
      ensures client.failing == map[] && roleName in old(client.roles) && Distinct(old(client.roles)[roleName].inline) ==>
        err.None?
    {
      ghost var clean := client.failing == map[] && roleName in client.roles && Distinct(client.roles[roleName].inline);
      var listed := client.ListRolePolicies(roleName);
      if listed.Err? {
        return Kube.Some(listed.error);
      }
      var names := listed.value;
      ghost var role := client.roles[roleName];
      ghost var current := names;
      ghost var documents := role.documents;
      var j := 0;
      while j < |names|
        invariant 0 <= j <= |names|
        invariant client.failing == old(client.failing) && client.profiles == old(client.profiles)
        invariant client.roles == old(client.roles)[roleName := role.(inline := current, documents := documents)]
        invariant Remaining(current, names, names[..j])
      {
        if clean {
          NextStillThere(current, names, j);
        }
        err := client.DeleteRolePolicy(roleName, names[j]);
        if err.Some? {
          return;
        }
        RemovingNextKeepsRemaining(current, names, j);
        current := Without(current, names[j]);
        documents := documents - {names[j]};
        j := j + 1;
      }
      NothingRemaining(current, names);
      err := Kube.None;
    }

    /**
     * `cleanAttachedPolicies`: detach every managed policy the role lists,
     * then delete every inline policy it lists, stopping at the first error.
     */
    method CleanAttachedPolicies(roleName: string) returns (err: Kube.Option<CallError>)
      modifies client
      ensures client.failing == old(client.failing) && client.profiles == old(client.profiles)
      ensures roleName !in old(client.roles) ==> client.roles == old(client.roles) && err.Some?
      ensures roleName in old(client.roles) ==>
        && roleName in client.roles
        && client.roles == old(client.roles)[roleName := client.roles[roleName]]
        && client.roles[roleName].description == old(client.roles)[roleName].description
        && client.roles[roleName].trust == old(client.roles)[roleName].trust
      ensures err.None? ==> roleName in client.roles && client.roles[roleName].attached == [] && client.roles[roleName].inline == []
      ensures client.failing == map[] && roleName in old(client.roles)
              && Distinct(old(client.roles)[roleName].attached) && Distinct(old(client.roles)[roleName].inline) ==>
        err.None?
    {
      err := DetachAttachedPolicies(roleName);
      if err.Some? {
        return;
      }
      err := DeleteInlinePolicies(roleName);
    }

    /**
     * `DeleteRole`: nothing to do for a missing role; otherwise clean its
     * policies, take it out of the instance profile of its own name and
     * delete that profile (both tolerating "no such entity", and ignoring
     * errors that are not API errors), then delete the role.
     */
    method DeleteRole(roleName: string) returns (err: Kube.Option<CallError>)
      modifies client
      ensures client.failing == old(client.failing)
      ensures SeenAbsent(client.failing, old(client.roles), roleName) ==>
        && err.None? && client.roles == old(client.roles) && client.profiles == old(client.profiles)
        && client.log == old(client.log) + [Call.GetRole(roleName)]
      ensures Call.GetRole(roleName) in client.failing && client.failing[Call.GetRole(roleName)] != Api(NoSuchEntity) ==>
        && err == Kube.Some(client.failing[Call.GetRole(roleName)])
        && client.roles == old(client.roles) && client.profiles == old(client.profiles)
        && client.log == old(client.log) + [Call.GetRole(roleName)]
      ensures roleName in client.roles ==> client.roles == old(client.roles)[roleName := client.roles[roleName]]
      ensures roleName !in client.roles ==> client.roles == old(client.roles) - {roleName}
      ensures client.profiles - {roleName} == old(client.profiles) - {roleName}
      ensures err.None? && !SeenAbsent(client.failing, old(client.roles), roleName) ==> roleName !in client.roles
      ensures client.failing == map[] && roleName in old(client.roles)
              && Distinct(old(client.roles)[roleName].attached) && Distinct(old(client.roles)[roleName].inline)
              && ProfilesAllowDeletion(old(client.profiles), roleName) ==>
        err.None? && client.roles == old(client.roles) - {roleName} && roleName !in client.profiles
    {
      var role := GetRole(roleName);
      if role.Err? {
        return Kube.Some(role.error);
      }
      if role.value.None? {
        return Kube.None;
      }
      err := CleanAttachedPolicies(roleName);
      if err.Some? {
        return;
      }
      var removed := client.RemoveRoleFromInstanceProfile(roleName, roleName);
      if removed.Some? && removed.value.Api? && removed.value.code != NoSuchEntity {
        return removed;
      }
      var deleted := client.DeleteInstanceProfile(roleName);
      if deleted.Some? && deleted.value.Api? && deleted.value.code != NoSuchEntity {
        return deleted;
      }
      err := client.DeleteRole(roleName);
    }
  }
}
