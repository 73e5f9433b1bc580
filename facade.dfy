/**
 * The facade: one lazily built instance per facade subclass, kept in a
 * static registry keyed by a digest of the subclass name, and forwarding of
 * every call to the client object that instance wraps.
 */
module Facades {

  /** An object of the wrapped client class (the HTTP client). */
  class Client {
    const className: string

    constructor (className: string)
      ensures this.className == className
    {
      this.className := className;
    }
  }

  /** The `$facade` property: the class name a subclass declares, then the object built from it. */
  datatype Slot = ClassName(name: string) | Instance(client: Client)

  /** The client's methods, called by name with positional arguments; kept abstract. */
  type Dispatch<!A, R> = (Client, string, seq<A>) -> R

  /** One facade object, an instance of the subclass `subclass`. */
  class Facade {
    /** `static::class` of this object. */
    const subclass: string
    var facade: Slot

    /** Once constructed, `$facade` holds the client object. */
    ghost predicate Valid()
      reads this
    {
      facade.Instance?
    }

    /** The constructor replaces the declared class name by a new object of that class. */
    constructor (subclass: string, declared: string)
      ensures this.subclass == subclass
      ensures Valid() && fresh(facade.client) && facade.client.className == declared
    {
      this.subclass := subclass;
      facade := ClassName(declared);
      new;
      var client := new Client(facade.name);
      facade := Instance(client);
    }

    /** `__call`: forward the name and the arguments, in order, to the client and return its result. */
    method Call<A, R>(name: string, params: seq<A>, dispatch: Dispatch<A, R>) returns (r: R)
      requires Valid()
      ensures r == dispatch(facade.client, name, params)
    {
      r := dispatch(facade.client, name, params);
    }
  }

  /** A digest of a class name (`md5` in the source), kept abstract. */
  type Key = string

  /** The static `$instances` array and the static entry point `__callStatic`. */
  class Registry {
    /** `md5` of a class name. */
    const keyOf: string -> Key
    /** The client class name each subclass declares in `$facade`. */
    const declaredClient: string -> string
    var instances: map<Key, Facade>

    /** Every entry is a constructed instance of a subclass whose digest is its key. */
    ghost predicate Valid()
      reads this, instances.Values
    {
      forall k | k in instances :: instances[k].Valid() && keyOf(instances[k].subclass) == k
    }

    constructor (keyOf: string -> Key, declaredClient: string -> string)
      ensures this.keyOf == keyOf && this.declaredClient == declaredClient
      ensures instances == map[] && Valid()
    {
      this.keyOf := keyOf;
      this.declaredClient := declaredClient;
      instances := map[];
    }

    /**
     * `__callStatic` on `subclass`: build and store an instance under the
     * subclass's key if there is none, then forward the call to it. The
     * instance's `__call` passes it on to the client; a subclass method of
     * the same name, which PHP would run instead, is not modelled. Since
     * `keyOf` is arbitrary, a subclass whose key collides with another's
     * reuses that entry, as PHP does.
     */
    method CallStatic<A, R>(subclass: string, name: string, params: seq<A>, dispatch: Dispatch<A, R>)
      returns (r: R)
      requires Valid()
      modifies this
      ensures Valid()
      ensures keyOf(subclass) in instances
      ensures keyOf(subclass) in old(instances) ==> instances == old(instances)
      ensures keyOf(subclass) !in old(instances) ==>
        && instances == old(instances)[keyOf(subclass) := instances[keyOf(subclass)]]
        && fresh(instances[keyOf(subclass)])
        && instances[keyOf(subclass)].subclass == subclass
        && fresh(instances[keyOf(subclass)].facade.client)
        && instances[keyOf(subclass)].facade.client.className == declaredClient(subclass)
      ensures old(instances).Keys <= instances.Keys
      ensures forall k | k in old(instances) :: instances[k] == old(instances)[k]
      ensures r == dispatch(instances[keyOf(subclass)].facade.client, name, params)
    {
      var key := keyOf(subclass);
      if key !in instances {
        var instance := new Facade(subclass, declaredClient(subclass));
        instances := instances[key := instance];
      }
      r := instances[key].Call(name, params, dispatch);
    }
  }

  /**
   * Two static calls on the same subclass reach the same client object, and
   * at most one instance is ever added for it.
   */
  method TwoStaticCalls<A, R>(registry: Registry, subclass: string,
                              name1: string, params1: seq<A>, name2: string, params2: seq<A>,
                              dispatch: Dispatch<A, R>)
    returns (r1: R, r2: R)
    requires registry.Valid()
    modifies registry
    ensures registry.Valid() && registry.keyOf(subclass) in registry.instances
    ensures var client := registry.instances[registry.keyOf(subclass)].facade.client;
      r1 == dispatch(client, name1, params1) && r2 == dispatch(client, name2, params2)
    ensures registry.instances.Keys == old(registry.instances).Keys + {registry.keyOf(subclass)}
  {
    r1 := registry.CallStatic(subclass, name1, params1, dispatch);
    r2 := registry.CallStatic(subclass, name2, params2, dispatch);
  }
}
