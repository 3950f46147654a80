/**
 * The Kubernetes API as the operator's client sees it: a store of objects by
 * name and namespace. Which calls fail is part of the store's state (a set
 * of operation/key pairs), so every error path of a caller can be reached.
 * Each write the store accepts or refuses is appended to `writes`.
 */
module Client {
  import opened Kube

  datatype Op = GetOp | CreateOp | UpdateOp | DeleteOp

  datatype Write = Write(op: Op, key: NamespacedName)

  /** The error a failing call returns. */
  const ApiError := Failure("api error")

  const AlreadyExists := Failure("already exists")

  class Store<T> {
    var objects: map<NamespacedName, T>
    var failing: set<(Op, NamespacedName)>
    var writes: seq<Write>

    constructor (objects: map<NamespacedName, T>, failing: set<(Op, NamespacedName)>)
      ensures this.objects == objects && this.failing == failing && writes == []
    {
      this.objects := objects;
      this.failing := failing;
      writes := [];
    }

    /** `client.Get`: the stored object, "not found", or the injected failure. */
    method Get(key: NamespacedName) returns (r: Result<T>)
      ensures (GetOp, key) in failing ==> r == Err(ApiError)
      ensures (GetOp, key) !in failing && key in objects ==> r == Ok(objects[key])
      ensures (GetOp, key) !in failing && key !in objects ==> r == Err(NotFound)
    {
      if (GetOp, key) in failing {
        r := Err(ApiError);
      } else if key in objects {
        r := Ok(objects[key]);
      } else {
        r := Err(NotFound);
      }
    }

    /** `client.Create`: refused when the key is taken. */
    method Create(key: NamespacedName, obj: T) returns (err: Option<Error>)
      modifies this
      ensures failing == old(failing) && writes == old(writes) + [Write(CreateOp, key)]
      ensures (CreateOp, key) in failing ==> err == Some(ApiError) && objects == old(objects)
      ensures (CreateOp, key) !in failing && key in old(objects) ==> err == Some(AlreadyExists) && objects == old(objects)
      ensures (CreateOp, key) !in failing && key !in old(objects) ==> err.None? && objects == old(objects)[key := obj]
    {
      writes := writes + [Write(CreateOp, key)];
      if (CreateOp, key) in failing {
        err := Some(ApiError);
      } else if key in objects {
        err := Some(AlreadyExists);
      } else {
        objects := objects[key := obj];
        err := None;
      }
    }

    /** `client.Update`: "not found" when the key is free. */
    method Update(key: NamespacedName, obj: T) returns (err: Option<Error>)
      modifies this
      ensures failing == old(failing) && writes == old(writes) + [Write(UpdateOp, key)]
      ensures (UpdateOp, key) in failing ==> err == Some(ApiError) && objects == old(objects)
      ensures (UpdateOp, key) !in failing && key !in old(objects) ==> err == Some(NotFound) && objects == old(objects)
      ensures (UpdateOp, key) !in failing && key in old(objects) ==> err.None? && objects == old(objects)[key := obj]
    {
      writes := writes + [Write(UpdateOp, key)];
      if (UpdateOp, key) in failing {
        err := Some(ApiError);
      } else if key !in objects {
        err := Some(NotFound);
      } else {
        objects := objects[key := obj];
        err := None;
      }
    }

    /** `client.Delete`: "not found" when the key is free. */
    method Delete(key: NamespacedName) returns (err: Option<Error>)
      modifies this
      ensures failing == old(failing) && writes == old(writes) + [Write(DeleteOp, key)]
      ensures (DeleteOp, key) in failing ==> err == Some(ApiError) && objects == old(objects)
      ensures (DeleteOp, key) !in failing && key !in old(objects) ==> err == Some(NotFound) && objects == old(objects)
      ensures (DeleteOp, key) !in failing && key in old(objects) ==> err.None? && objects == old(objects) - {key}
    {
      writes := writes + [Write(DeleteOp, key)];
      if (DeleteOp, key) in failing {
        err := Some(ApiError);
      } else if key !in objects {
        err := Some(NotFound);
      } else {
        objects := objects - {key};
        err := None;
      }
    }
  }
}

/** pkg/common/resource.go: the get, then create or update, every generated resource goes through. */
module Resource {
  import opened Kube
  import opened Client

  /**
   * `EnsureCreatedOrUpdated`: create the desired object when its key is
   * free, update it when `needUpdate` says the stored one is stale, and
   * otherwise leave the store alone; at most one write either way.
   */
  method EnsureCreatedOrUpdated<T>(store: Store<T>, key: NamespacedName, desired: T, needUpdate: (T, T) -> bool)
    returns (err: Option<Error>)
    modifies store
    ensures store.failing == old(store.failing)
    ensures (GetOp, key) in store.failing ==>
      && err == Some(ApiError)
      && store.objects == old(store.objects) && store.writes == old(store.writes)
    ensures (GetOp, key) !in store.failing && key !in old(store.objects) ==>
      && store.writes == old(store.writes) + [Write(CreateOp, key)]
      && (err.None? <==> (CreateOp, key) !in store.failing)
      && store.objects == (if err.None? then old(store.objects)[key := desired] else old(store.objects))
    ensures (GetOp, key) !in store.failing && key in old(store.objects) && !needUpdate(old(store.objects)[key], desired) ==>
      && err.None?
      && store.objects == old(store.objects) && store.writes == old(store.writes)
    ensures (GetOp, key) !in store.failing && key in old(store.objects) && needUpdate(old(store.objects)[key], desired) ==>
      && store.writes == old(store.writes) + [Write(UpdateOp, key)]
      && (err.None? <==> (UpdateOp, key) !in store.failing)
      && store.objects == (if err.None? then old(store.objects)[key := desired] else old(store.objects))
  {
    var current := store.Get(key);
    if current.Err? {
      if current.error == NotFound {
        err := store.Create(key, desired);
        return;
      }
      return Some(current.error);
    }
    if !needUpdate(current.value, desired) {
      return None;
    }
    err := store.Update(key, desired);
  }
}
