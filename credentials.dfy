/**
 * The random 20-character passwords both credential tables hand out
 * (`generatePassword` in pkg/resource/credentials and `genPassword` in
 * pkg/resource/logging-credentials share the same code). Randomness is the
 * parameter `draw`: `draw(i)` is what the i-th call to `rand.Int(rand.Reader, 62)`
 * returns, a number below 62 or an error.
 */
module Passwords {
  import opened Kube

  function Length(): nat { 20 }

  /** `n` consecutive characters from `first` on. */
  function Run(first: char, n: nat): (r: string)
    requires first as int + n <= 0xD800
    ensures |r| == n && forall i :: 0 <= i < n ==> r[i] as int == first as int + i
  {
    seq(n, i requires 0 <= i < n => (first as int + i) as char)
  }

  /** The 62 characters a password is drawn from: "A" to "Z", then "a" to "z", then "0" to "9". */
  const Alphabet := Run('A', 26) + Run('a', 26) + Run('0', 10)

  predicate IsAlnum(c: char)
  {
    'A' <= c <= 'Z' || 'a' <= c <= 'z' || '0' <= c <= '9'
  }

  /** What `rand.Int` with bound 62 can return. */
  type Draw = n: nat | n < 62

  lemma AlphabetIsAlnum()
    ensures |Alphabet| == 62
    ensures forall i :: 0 <= i < |Alphabet| ==> IsAlnum(Alphabet[i])
  {
    forall i | 0 <= i < |Alphabet|
      ensures IsAlnum(Alphabet[i])
    {
      if i < 26 {
        assert Alphabet[i] == Run('A', 26)[i];
      } else if i < 52 {
        assert Alphabet[i] == Run('a', 26)[i - 26];
      } else {
        assert Alphabet[i] == Run('0', 10)[i - 52];
      }
    }
  }

  /** The first `n` characters of a password, or the error of the first draw that failed. */
  function Drawn(draw: nat -> Result<Draw>, n: nat): (r: Result<string>)
    ensures r.Ok? <==> forall i :: 0 <= i < n ==> draw(i).Ok?
    ensures r.Ok? ==> |r.value| == n && forall i :: 0 <= i < n ==> r.value[i] == Alphabet[draw(i).value]
  {
    if n == 0 then Ok("")
    else match Drawn(draw, n - 1)
      case Err(e) => Err(e)
      case Ok(p) =>
        match draw(n - 1)
        case Err(e) => Err(e)
        case Ok(k) => Ok(p + [Alphabet[k]])
  }

  /** Once a draw has failed, no later draw changes the outcome. */
  lemma {:induction false} DrawnStaysFailed(draw: nat -> Result<Draw>, i: nat, j: nat)
    requires i <= j && Drawn(draw, i).Err?
    ensures Drawn(draw, j) == Drawn(draw, i)
    decreases j - i
  {
    if i < j {
      DrawnStaysFailed(draw, i, j - 1);
    }
  }

  /** A password is 20 characters long, each a letter or a digit. */
  lemma PasswordShape(draw: nat -> Result<Draw>)
    ensures Drawn(draw, Length()).Ok? ==>
      |Drawn(draw, Length()).value| == Length()
      && forall i :: 0 <= i < Length() ==> IsAlnum(Drawn(draw, Length()).value[i])
  {
    AlphabetIsAlnum();
  }

  /** `generatePassword`: fills a 20-slot rune array draw by draw, giving up at the first failed draw. */
  method Generate(draw: nat -> Result<Draw>) returns (r: Result<string>)
    ensures r == Drawn(draw, Length())
  {
    r := Fill(draw, Length());
  }

  /** The loop of `generatePassword` over an array of `n` runes. */
  method Fill(draw: nat -> Result<Draw>, n: nat) returns (r: Result<string>)
    ensures r == Drawn(draw, n)
  {
    var pass := new char[n];
    assert |Alphabet| == 62;
    for i := 0 to n
      invariant Drawn(draw, i) == Ok(pass[..i])
    {
      var num := draw(i);
      if num.Err? {
        DrawnStaysFailed(draw, i + 1, n);
        return Err(num.error);
      }
      ghost var before := pass[..i];
      pass[i] := Alphabet[num.value];
      assert pass[..i + 1] == before + [Alphabet[num.value]];
    }
    assert pass[..n] == pass[..];
    r := Ok(pass[..]);
  }
}

/**
 * pkg/resource/credentials: the per-cluster credentials secrets. Each secret
 * maps a user name to the YAML of `{password: ...}`; the table is extended or
 * shrunk in place and written back only when it changed.
 */
module Credentials {
  import opened Kube
  import opened Client
  import Passwords

  const LoggingCredentialsName := "logging-credentials"
  const LoggingCredentialsNamespace := "monitoring"
  const TracingCredentialsName := "tracing-credentials"
  const TracingCredentialsNamespace := "monitoring"

  /** YAML encoding of `userCredentials{Password: p}`; a foreign library, so its results are left open. */
  const MarshalUser: string -> Result<string>

  /** YAML decoding of a stored user entry into its password. */
  const UnmarshalUser: string -> Result<string>

  /** `CredentialsSecretMeta`: the given name and namespace, with only the common labels. */
  function SecretMeta(name: string, namespace: string): (m: ObjectMeta)
    ensures m.name == name && m.namespace == namespace
    ensures m.labels == CommonLabels
  {
    ObjectMeta(name, namespace, AddCommonLabels(map[]))
  }

  /** The empty secret a reconcile starts from. */
  function BasicSecret(name: string, namespace: string): Secret
  {
    Secret(SecretMeta(name, namespace), map[])
  }

  /** `GetPassword`: "Not found" for a missing user, "Invalid user <name>" for an entry that does not decode. */
  function GetPassword(data: map<string, string>, username: string): (r: Result<string>)
    ensures username !in data ==> r == Err(Failure("Not found"))
    ensures username in data && UnmarshalUser(data[username]).Err? ==> r == Err(Failure("Invalid user " + username))
    ensures username in data && UnmarshalUser(data[username]).Ok? ==> r == UnmarshalUser(data[username])
  {
    if username !in data then Err(Failure("Not found"))
    else match UnmarshalUser(data[username])
      case Err(_) => Err(Failure("Invalid user " + username))
      case Ok(p) => Ok(p)
  }

  /**
   * Reference definition of one credentials check: a present user is left
   * alone; an absent one gets a fresh password, encoded, unless generating or
   * encoding it fails, which gives `genErr` or `marshalErr`.
   */
  function Insert(data: map<string, string>, user: string, draw: nat -> Result<Passwords.Draw>, genErr: Error, marshalErr: Error)
    : (r: Result<map<string, string>>)
    ensures user in data ==> r == Ok(data)
    ensures r.Ok? ==> r.value.Keys == data.Keys + {user}
    ensures r.Ok? ==> forall k :: k in data ==> r.value[k] == data[k]
    ensures r.Err? ==> user !in data && (r.error == genErr || r.error == marshalErr)
    ensures user !in data && Passwords.Drawn(draw, Passwords.Length()).Err? ==> r == Err(genErr)
    ensures user !in data && Passwords.Drawn(draw, Passwords.Length()).Ok? ==>
      (r.Ok? <==> MarshalUser(Passwords.Drawn(draw, Passwords.Length()).value).Ok?)
  {
    if user in data then Ok(data)
    else match Passwords.Drawn(draw, Passwords.Length())
      case Err(_) => Err(genErr)
      case Ok(p) =>
        match MarshalUser(p)
        case Err(_) => Err(marshalErr)
        case Ok(v) => Ok(data[user := v])
  }

  /** A user added to a table that lacked it is gone again after removal, and the table is as before. */
  lemma InsertThenRemove(data: map<string, string>, user: string, draw: nat -> Result<Passwords.Draw>, genErr: Error, marshalErr: Error)
    requires user !in data && Insert(data, user, draw, genErr, marshalErr).Ok?
    ensures Insert(data, user, draw, genErr, marshalErr).value - {user} == data
  {
    var r := Insert(data, user, draw, genErr, marshalErr).value;
    assert (r - {user}).Keys == data.Keys;
  }

  /** A credentials secret held in memory, its data extended or shrunk in place. */
  class CredentialsSecret {
    var meta: ObjectMeta
    var data: map<string, string>

    constructor (s: Secret)
      ensures meta == s.meta && data == s.data
    {
      meta := s.meta;
      data := s.data;
    }

    function Value(): Secret
      reads this
    {
      Secret(meta, data)
    }

    /** `AddCredentials`: an entry for the cluster when it has none; true exactly when one was inserted. */
    method AddCredentials(clusterName: string, draw: nat -> Result<Passwords.Draw>) returns (updated: bool, err: Option<Error>)
      modifies this
      ensures meta == old(meta)
      ensures var r := Insert(old(data), clusterName, draw, Failure("Failed generating write password"), Failure("Failed creating write user"));
        && (r.Ok? ==> err.None? && data == r.value && (updated <==> clusterName !in old(data)))
        && (r.Err? ==> err == Some(r.error) && data == old(data) && !updated)
    {
      updated := false;
      if clusterName !in data {
        var password := Passwords.Generate(draw);
        if password.Err? {
          return false, Some(Failure("Failed generating write password"));
        }
        var v := MarshalUser(password.value);
        if v.Err? {
          return false, Some(Failure("Failed creating write user"));
        }
        data := data[clusterName := v.value];
        updated := true;
      }
      err := None;
    }

    /** `RemoveCredentials`: deletes the cluster's entry, and only it; true exactly when there was one. */
    method RemoveCredentials(clusterName: string) returns (updated: bool)
      modifies this
      ensures meta == old(meta)
      ensures data == old(data) - {clusterName}
      ensures updated <==> clusterName in old(data)
    {
      updated := false;
      if clusterName in data {
        data := data - {clusterName};
        updated := true;
      }
    }
  }

  /** The store after a reconcile step, the writes it issued, and its error. */
  datatype Outcome = Outcome(objects: map<NamespacedName, Secret>, writes: seq<Write>, err: Option<Error>)

  /** Reference definition of the commit: `Update`, and `Create` when the update found nothing. */
  function CommitOutcome(objects: map<NamespacedName, Secret>, failing: set<(Op, NamespacedName)>, key: NamespacedName, s: Secret): (o: Outcome)
    ensures 1 <= |o.writes| <= 2 && o.writes[0] == Write(UpdateOp, key)
    ensures o.err.None? ==> o.objects == objects[key := s]
    ensures o.err.Some? ==> o.objects == objects
    ensures |o.writes| == 2 <==> (UpdateOp, key) !in failing && key !in objects
  {
    if (UpdateOp, key) in failing then Outcome(objects, [Write(UpdateOp, key)], Some(ApiError))
    else if key in objects then Outcome(objects[key := s], [Write(UpdateOp, key)], None)
    else if (CreateOp, key) in failing then Outcome(objects, [Write(UpdateOp, key), Write(CreateOp, key)], Some(ApiError))
    else Outcome(objects[key := s], [Write(UpdateOp, key), Write(CreateOp, key)], None)
  }

  /** The secret a reconcile starts from: the stored one, or the empty one when there is none. */
  function Fetched(objects: map<NamespacedName, Secret>, name: string, namespace: string): Secret
  {
    var key := NamespacedName(name, namespace);
    if key in objects then objects[key] else BasicSecret(name, namespace)
  }

  /** A label drift resets the whole metadata to the canonical one. */
  function Relabelled(s: Secret, name: string, namespace: string): Secret
  {
    if s.meta.labels != SecretMeta(name, namespace).labels then s.(meta := SecretMeta(name, namespace)) else s
  }

  /** Reference definition of `createCredentialsSecret`. */
  function CreateOutcome(objects: map<NamespacedName, Secret>, failing: set<(Op, NamespacedName)>,
                         name: string, namespace: string, clusterName: string, draw: nat -> Result<Passwords.Draw>): Outcome
  {
    var key := NamespacedName(name, namespace);
    if (GetOp, key) in failing then Outcome(objects, [], Some(ApiError))
    else
      var current := Fetched(objects, name, namespace);
      match Insert(current.data, clusterName, draw, Failure("Failed generating write password"), Failure("Failed creating write user"))
      case Err(e) => Outcome(objects, [], Some(e))
      case Ok(d) =>
        if clusterName in current.data && current.meta.labels == SecretMeta(name, namespace).labels then Outcome(objects, [], None)
        else CommitOutcome(objects, failing, key, Relabelled(current.(data := d), name, namespace))
  }

  /** Reference definition of `deleteCredentialsSecret`. */
  function DeleteOutcome(objects: map<NamespacedName, Secret>, failing: set<(Op, NamespacedName)>,
                         name: string, namespace: string, clusterName: string): Outcome
  {
    var key := NamespacedName(name, namespace);
    if (GetOp, key) in failing then Outcome(objects, [], Some(ApiError))
    else if key !in objects then Outcome(objects, [], None)
    else
      var current := objects[key];
      if clusterName !in current.data && current.meta.labels == SecretMeta(name, namespace).labels then Outcome(objects, [], None)
      else CommitOutcome(objects, failing, key, Relabelled(current.(data := current.data - {clusterName}), name, namespace))
  }

  /**
   * A write happens exactly when the cluster's entry had to be added or the
   * labels drifted; a failed read writes nothing.
   */
  lemma CreateWritesIffChanged(objects: map<NamespacedName, Secret>, failing: set<(Op, NamespacedName)>,
                               name: string, namespace: string, clusterName: string, draw: nat -> Result<Passwords.Draw>)
    ensures var o := CreateOutcome(objects, failing, name, namespace, clusterName, draw);
      var current := Fetched(objects, name, namespace);
      && ((GetOp, NamespacedName(name, namespace)) in failing ==> o.writes == [] && o.err == Some(ApiError))
      && ((GetOp, NamespacedName(name, namespace)) !in failing && o.err.None? ==>
            (o.writes != [] <==> clusterName !in current.data || current.meta.labels != CommonLabels))
  {
  }

  /** After a successful create the stored table holds the cluster's entry, every earlier entry unchanged, with canonical labels. */
  lemma CreateStoresEntry(objects: map<NamespacedName, Secret>, failing: set<(Op, NamespacedName)>,
                          name: string, namespace: string, clusterName: string, draw: nat -> Result<Passwords.Draw>)
    requires CreateOutcome(objects, failing, name, namespace, clusterName, draw).err.None?
    requires (GetOp, NamespacedName(name, namespace)) !in failing
    ensures var o := CreateOutcome(objects, failing, name, namespace, clusterName, draw);
      var key := NamespacedName(name, namespace);
      var before := Fetched(objects, name, namespace);
      && key in o.objects
      && clusterName in o.objects[key].data
      && o.objects[key].meta.labels == CommonLabels
      && (forall u :: u in before.data ==> u in o.objects[key].data && o.objects[key].data[u] == before.data[u])
  {
  }

  /** After a successful delete the stored table, if any, no longer holds the cluster's entry. */
  lemma DeleteRemovesEntry(objects: map<NamespacedName, Secret>, failing: set<(Op, NamespacedName)>,
                           name: string, namespace: string, clusterName: string)
    requires DeleteOutcome(objects, failing, name, namespace, clusterName).err.None?
    ensures var o := DeleteOutcome(objects, failing, name, namespace, clusterName);
      var key := NamespacedName(name, namespace);
      && (key in o.objects <==> key in objects)
      && (key in o.objects ==>
            clusterName !in o.objects[key].data && o.objects[key].data == objects[key].data - {clusterName})
  {
  }

  /** `Update`, falling back to `Create` when the secret does not exist. */
  method Commit(store: Store<Secret>, key: NamespacedName, s: Secret) returns (err: Option<Error>)
    modifies store
    ensures store.failing == old(store.failing)
    ensures var o := CommitOutcome(old(store.objects), old(store.failing), key, s);
      store.objects == o.objects && store.writes == old(store.writes) + o.writes && err == o.err
  {
    err := store.Update(key, s);
    if err == Some(NotFound) {
      err := store.Create(key, s);
    }
  }

  /** `createCredentialsSecret`. */
  method CreateCredentialsSecret(store: Store<Secret>, name: string, namespace: string, clusterName: string, draw: nat -> Result<Passwords.Draw>)
    returns (err: Option<Error>)
    modifies store
    ensures store.failing == old(store.failing)
    ensures var o := CreateOutcome(old(store.objects), old(store.failing), name, namespace, clusterName, draw);
      store.objects == o.objects && store.writes == old(store.writes) + o.writes && err == o.err
  {
    var key := NamespacedName(SecretMeta(name, namespace).name, SecretMeta(name, namespace).namespace);
    var secret := new CredentialsSecret(BasicSecret(name, namespace));
    var current := store.Get(key);
    if current.Err? {
      if current.error != NotFound {
        return Some(current.error);
      }
    } else {
      secret.meta, secret.data := current.value.meta, current.value.data;
    }
    var updated;
    updated, err := secret.AddCredentials(clusterName, draw);
    if err.Some? {
      return err;
    }
    if secret.meta.labels != SecretMeta(name, namespace).labels {
      secret.meta := SecretMeta(name, namespace);
      updated := true;
    }
    if !updated {
      return None;
    }
    err := Commit(store, key, secret.Value());
  }

  /** `deleteCredentialsSecret`. */
  method DeleteCredentialsSecret(store: Store<Secret>, name: string, namespace: string, clusterName: string)
    returns (err: Option<Error>)
    modifies store
    ensures store.failing == old(store.failing)
    ensures var o := DeleteOutcome(old(store.objects), old(store.failing), name, namespace, clusterName);
      store.objects == o.objects && store.writes == old(store.writes) + o.writes && err == o.err
  {
    var key := NamespacedName(SecretMeta(name, namespace).name, SecretMeta(name, namespace).namespace);
    var secret := new CredentialsSecret(BasicSecret(name, namespace));
    var current := store.Get(key);
    if current.Err? {
      if current.error == NotFound {
        return None;
      }
      return Some(current.error);
    }
    secret.meta, secret.data := current.value.meta, current.value.data;
    var updated := secret.RemoveCredentials(clusterName);
    if secret.meta.labels != SecretMeta(name, namespace).labels {
      secret.meta := SecretMeta(name, namespace);
      updated := true;
    }
    if !updated {
      return None;
    }
    err := Commit(store, key, secret.Value());
  }

  /**
   * `ReconcileCreate`: the logging credentials first; the tracing credentials
   * only when tracing is enabled and the logging step succeeded. The result
   * is always the zero result.
   */
  method ReconcileCreate(store: Store<Secret>, clusterName: string, enableTracing: bool,
                         drawLogging: nat -> Result<Passwords.Draw>, drawTracing: nat -> Result<Passwords.Draw>)
    returns (res: CtrlResult, err: Option<Error>)
    modifies store
    ensures res == ZeroResult
    ensures store.failing == old(store.failing)
    ensures var l := CreateOutcome(old(store.objects), old(store.failing), LoggingCredentialsName, LoggingCredentialsNamespace, clusterName, drawLogging);
      if l.err.Some? || !enableTracing then
        store.objects == l.objects && store.writes == old(store.writes) + l.writes && err == l.err
      else
        var t := CreateOutcome(l.objects, old(store.failing), TracingCredentialsName, TracingCredentialsNamespace, clusterName, drawTracing);
        store.objects == t.objects && store.writes == old(store.writes) + l.writes + t.writes && err == t.err
  {
    err := CreateCredentialsSecret(store, LoggingCredentialsName, LoggingCredentialsNamespace, clusterName, drawLogging);
    if err.Some? {
      return ZeroResult, err;
    }
    if enableTracing {
      err := CreateCredentialsSecret(store, TracingCredentialsName, TracingCredentialsNamespace, clusterName, drawTracing);
      if err.Some? {
        return ZeroResult, err;
      }
    }
    return ZeroResult, err;
  }

  /** `ReconcileDelete`: the same order and gating as `ReconcileCreate`, removing the cluster's entries. */
  method ReconcileDelete(store: Store<Secret>, clusterName: string, enableTracing: bool)
    returns (res: CtrlResult, err: Option<Error>)
    modifies store
    ensures res == ZeroResult
    ensures store.failing == old(store.failing)
    ensures var l := DeleteOutcome(old(store.objects), old(store.failing), LoggingCredentialsName, LoggingCredentialsNamespace, clusterName);
      if l.err.Some? || !enableTracing then
        store.objects == l.objects && store.writes == old(store.writes) + l.writes && err == l.err
      else
        var t := DeleteOutcome(l.objects, old(store.failing), TracingCredentialsName, TracingCredentialsNamespace, clusterName);
        store.objects == t.objects && store.writes == old(store.writes) + l.writes + t.writes && err == t.err
  {
    err := DeleteCredentialsSecret(store, LoggingCredentialsName, LoggingCredentialsNamespace, clusterName);
    if err.Some? {
      return ZeroResult, err;
    }
    if enableTracing {
      err := DeleteCredentialsSecret(store, TracingCredentialsName, TracingCredentialsNamespace, clusterName);
      if err.Some? {
        return ZeroResult, err;
      }
    }
    return ZeroResult, err;
  }
}

/**
 * pkg/resource/logging-credentials: the installation-wide logging
 * credentials, one read user plus one write user per cluster, and the
 * context that carries the secret to the resources that need it.
 */
module LoggingCredentials {
  import opened Kube
  import GoContext
  import Common
  import Passwords
  import Credentials
  import ObservabilityBundle

  /** `LoggingCredentialsSecretMeta`: "logging-credentials" in "monitoring", whatever the cluster. */
  const Meta := Credentials.SecretMeta(Credentials.LoggingCredentialsName, Credentials.LoggingCredentialsNamespace)

  const Key := KeyOf(Meta)

  /** The zero `v1.Secret`. */
  const EmptySecret := Secret(EmptyMeta, map[])

  /**
   * `AddLoggingCredentials`: first the read user, then the cluster's write
   * user, each only when missing. True exactly when an entry was inserted. A
   * failure on the write user returns false, yet the read user it may already
   * have inserted stays in the table.
   */
  method AddLoggingCredentials(secret: Credentials.CredentialsSecret, clusterName: string,
                               drawRead: nat -> Result<Passwords.Draw>, drawWrite: nat -> Result<Passwords.Draw>)
    returns (updated: bool, err: Option<Error>)
    modifies secret
    ensures secret.meta == old(secret.meta)
    ensures var r := Credentials.Insert(old(secret.data), Common.ReadUser, drawRead,
                                        Failure("Failed generating read password"), Failure("Failed creating read user"));
      && (r.Err? ==> err == Some(r.error) && !updated && secret.data == old(secret.data))
      && (r.Ok? ==>
            var w := Credentials.Insert(r.value, clusterName, drawWrite,
                                        Failure("Failed generating write password"), Failure("Failed creating write user"));
            && (w.Err? ==> err == Some(w.error) && !updated && secret.data == r.value)
            && (w.Ok? ==> err.None? && secret.data == w.value && (updated <==> secret.data.Keys != old(secret.data).Keys)))
  {
    var readAdded, writeAdded;
    readAdded, err := AddUser(secret, Common.ReadUser, drawRead,
                              Failure("Failed generating read password"), Failure("Failed creating read user"));
    if err.Some? {
      return false, err;
    }
    writeAdded, err := AddUser(secret, clusterName, drawWrite,
                               Failure("Failed generating write password"), Failure("Failed creating write user"));
    if err.Some? {
      return false, err;
    }
    updated := readAdded || writeAdded;
  }

  /** One block of `AddLoggingCredentials`: the user's entry generated and stored when it is missing. */
  method AddUser(secret: Credentials.CredentialsSecret, user: string, draw: nat -> Result<Passwords.Draw>, genErr: Error, marshalErr: Error)
    returns (added: bool, err: Option<Error>)
    modifies secret
    ensures secret.meta == old(secret.meta)
    ensures var r := Credentials.Insert(old(secret.data), user, draw, genErr, marshalErr);
      && (r.Err? ==> err == Some(r.error) && secret.data == old(secret.data))
      && (r.Ok? ==> err.None? && secret.data == r.value && (added <==> user !in old(secret.data)))
  {
    added := false;
    err := None;
    if user !in secret.data {
      var password := Passwords.Generate(draw);
      if password.Err? {
        return false, Some(genErr);
      }
      var v := Credentials.MarshalUser(password.value);
      if v.Err? {
        return false, Some(marshalErr);
      }
      secret.data := secret.data[user := v.value];
      added := true;
    }
  }

  /** After a successful `AddLoggingCredentials` the table holds the read user and the cluster's user. */
  lemma AddedUsersPresent(data: map<string, string>, clusterName: string,
                          drawRead: nat -> Result<Passwords.Draw>, drawWrite: nat -> Result<Passwords.Draw>)
    requires Credentials.Insert(data, Common.ReadUser, drawRead,
                                Failure("Failed generating read password"), Failure("Failed creating read user")).Ok?
    ensures var r := Credentials.Insert(data, Common.ReadUser, drawRead,
                                        Failure("Failed generating read password"), Failure("Failed creating read user")).value;
      var w := Credentials.Insert(r, clusterName, drawWrite,
                                  Failure("Failed generating write password"), Failure("Failed creating write user"));
      w.Ok? ==> Common.ReadUser in w.value && clusterName in w.value
  {
  }

  /** `NewContext`: reads the secret and stores it in the context; a failed read gives no context and its error. */
  function NewContext(ctx: GoContext.Context, get: NamespacedName -> Result<Secret>): (r: ObservabilityBundle.ContextOutcome)
    ensures r.result == ZeroResult
    ensures get(Key).Err? ==> r.ctx.None? && r.err == Some(get(Key).error)
    ensures get(Key).Ok? ==> r.err.None? && r.ctx == Some(ctx.(loggingCredentials := Some(get(Key).value)))
  {
    match get(Key)
      case Err(e) => ObservabilityBundle.ContextOutcome(None, ZeroResult, Some(e))
      case Ok(s) => ObservabilityBundle.ContextOutcome(Some(ctx.(loggingCredentials := Some(s))), ZeroResult, None)
  }

  /** `FromContext`: the stored secret and true, or the zero secret and false. */
  function FromContext(ctx: GoContext.Context): (Secret, bool)
  {
    match ctx.loggingCredentials
      case None => (EmptySecret, false)
      case Some(s) => (s, true)
  }

  /** What `NewContext` stored is what `FromContext` returns. */
  lemma ContextRoundTrip(ctx: GoContext.Context, get: NamespacedName -> Result<Secret>)
    requires get(Key).Ok?
    ensures NewContext(ctx, get).ctx.Some?
    ensures FromContext(NewContext(ctx, get).ctx.value) == (get(Key).value, true)
  {
  }

  lemma NothingInBackground()
    ensures !FromContext(GoContext.Background).1
  {
  }

  /**
   * `Read`: the secret cached in the context, else the stored one, else (the
   * read failed) the zero secret; it never reports an error. The context it
   * extends is local to it, so it caches nothing for later calls.
   */
  function Read(ctx: GoContext.Context, get: NamespacedName -> Result<Secret>): (s: Secret)
    ensures ctx.loggingCredentials.Some? ==> s == ctx.loggingCredentials.value
    ensures ctx.loggingCredentials.None? && get(Key).Err? ==> s == EmptySecret
    ensures ctx.loggingCredentials.None? && get(Key).Ok? ==> s == get(Key).value
  {
    match ctx.loggingCredentials
      case Some(s) => s
      case None =>
        match get(Key)
          case Err(_) => EmptySecret
          case Ok(s) => s
  }

  /** Behind `NewContext`, `Read` serves the secret fetched then, whatever the store says now. */
  lemma ReadAfterNewContext(ctx: GoContext.Context, get: NamespacedName -> Result<Secret>, later: NamespacedName -> Result<Secret>)
    requires get(Key).Ok?
    ensures Read(NewContext(ctx, get).ctx.value, later) == get(Key).value
  {
  }
}
