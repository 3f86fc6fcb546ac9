/** The Kubernetes API server as the controllers and resolvers see it
    through a controller-runtime client: for each kind, the stored objects by
    namespace and name, each with a resource version that every write
    increases.  The only failures modelled are the ones the modelled code
    distinguishes: a missing object, a name already taken, a write carrying a
    stale version and a delete of an object without a name. */
module Cluster {
  import opened Wrappers
  import opened Kube

  const EmptyNameError := Message("resource name may not be empty")

  /** `client.IgnoreNotFound`. */
  function IgnoreNotFound(o: Outcome): (r: Outcome)
    ensures r.Pass? <==> o.Pass? || o.error.NotFound?
    ensures r.Fail? ==> r == o
  {
    if o.Fail? && o.error.NotFound? then Pass else o
  }

  /** The objects of one kind, as a value. */
  datatype Store<T(==)> = Store(objects: map<ObjectKey, T>, versions: map<ObjectKey, nat>)
  {
    /** `client.Get`: the stored object, or a not-found error. */
    function Get(key: ObjectKey): (r: Result<T>)
      ensures r.Ok? <==> key in objects
      ensures r.Ok? ==> r.value == objects[key]
      ensures r.Err? ==> r.error == NotFound(key.name)
    {
      if key in objects then Ok(objects[key]) else Err(NotFound(key.name))
    }

    /** The resource version a `Get` of `key` reports (0 when absent). */
    function Version(key: ObjectKey): nat
    {
      if key in versions then versions[key] else 0
    }

    /** `client.Create`: fails if the name is taken; a new object starts at
        version 1. */
    function Create(key: ObjectKey, obj: T): (r: (Outcome, Store<T>))
      ensures r.0.Fail? <==> key in objects
      ensures r.0.Fail? ==> r.0.error == AlreadyExists(key.name) && r.1 == this
      ensures r.0.Pass? ==> r.1.Get(key) == Ok(obj) && r.1.Version(key) == 1
      ensures forall k :: k != key ==> r.1.Get(k) == Get(k) && r.1.Version(k) == Version(k)
    {
      if key in objects then (Fail(AlreadyExists(key.name)), this)
      else (Pass, Store(objects[key := obj], versions[key := 1]))
    }

    /** `client.Update` and `client.Status().Update`: the write carries the
        version the object was read at and is refused unless that is still
        the stored version. */
    function Update(key: ObjectKey, obj: T, version: nat): (r: (Outcome, Store<T>))
      ensures r.0 == (if key !in objects then Fail(NotFound(key.name))
                      else if version != Version(key) then Fail(Conflict(key.name))
                      else Pass)
      ensures r.0.Fail? ==> r.1 == this
      ensures r.0.Pass? ==> r.1.Get(key) == Ok(obj) && r.1.Version(key) == Version(key) + 1
      ensures forall k :: k != key ==> r.1.Get(k) == Get(k) && r.1.Version(k) == Version(k)
    {
      if key !in objects then (Fail(NotFound(key.name)), this)
      else if version != Version(key) then (Fail(Conflict(key.name)), this)
      else (Pass, Store(objects[key := obj], versions[key := version + 1]))
    }

    /** `client.Delete`: an object with an empty name is refused before any
        request is sent; a missing object is not found. */
    function Delete(key: ObjectKey): (r: (Outcome, Store<T>))
      ensures r.0 == (if key.name == "" then Fail(EmptyNameError)
                      else if key !in objects then Fail(NotFound(key.name))
                      else Pass)
      ensures r.0.Fail? ==> r.1 == this
      ensures r.0.Pass? ==> r.1.Get(key).Err?
      ensures forall k :: k != key ==> r.1.Get(k) == Get(k) && r.1.Version(k) == Version(k)
    {
      if key.name == "" then (Fail(EmptyNameError), this)
      else if key !in objects then (Fail(NotFound(key.name)), this)
      else (Pass, Store(objects - {key}, versions - {key}))
    }

    /** `controllerutil.CreateOrUpdate`: apply `mutate` to the stored object,
        or to `initial` when there is none, and write the result unless it is
        unchanged. */
    function CreateOrUpdate(key: ObjectKey, initial: T, mutate: T -> T): (r: (Outcome, Store<T>))
      ensures key !in objects ==> r == Create(key, mutate(initial))
      ensures key in objects ==> r.0.Pass?
      ensures r.1.Get(key) == Ok(if key in objects then mutate(objects[key]) else mutate(initial))
      ensures forall k :: k != key ==> r.1.Get(k) == Get(k) && r.1.Version(k) == Version(k)
    {
      if key !in objects then Create(key, mutate(initial))
      else if mutate(objects[key]) == objects[key] then (Pass, this)
      else Update(key, mutate(objects[key]), Version(key))
    }
  }

  /** The API server's objects of one kind; each client call is one step on
      the stored value. */
  class Collection<T(==)> {
    var store: Store<T>

    constructor()
      ensures store == Store(map[], map[])
    {
      store := Store(map[], map[]);
    }

    method Create(key: ObjectKey, obj: T) returns (r: Outcome)
      modifies this
      ensures (r, store) == old(store).Create(key, obj)
    {
      if key in store.objects {
        return Fail(AlreadyExists(key.name));
      }
      store := Store(store.objects[key := obj], store.versions[key := 1]);
      return Pass;
    }

    method Update(key: ObjectKey, obj: T, version: nat) returns (r: Outcome)
      modifies this
      ensures (r, store) == old(store).Update(key, obj, version)
    {
      if key !in store.objects {
        return Fail(NotFound(key.name));
      }
      if version != store.Version(key) {
        return Fail(Conflict(key.name));
      }
      store := Store(store.objects[key := obj], store.versions[key := version + 1]);
      return Pass;
    }

    method Delete(key: ObjectKey) returns (r: Outcome)
      modifies this
      ensures (r, store) == old(store).Delete(key)
    {
      if key.name == "" {
        return Fail(EmptyNameError);
      }
      if key !in store.objects {
        return Fail(NotFound(key.name));
      }
      store := Store(store.objects - {key}, store.versions - {key});
      return Pass;
    }

    method CreateOrUpdate(key: ObjectKey, initial: T, mutate: T -> T) returns (r: Outcome)
      modifies this
      ensures (r, store) == old(store).CreateOrUpdate(key, initial, mutate)
    {
      if key !in store.objects {
        r := Create(key, mutate(initial));
        return;
      }
      var existing := store.objects[key];
      var changed := mutate(existing);
      if changed == existing {
        return Pass;
      }
      r := Update(key, changed, store.Version(key));
    }
  }
}
