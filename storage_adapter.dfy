/** The storage adapters of the current engine: `init`, `get`, `set` and
    `delete` over a Keyv store. There are three of them, one per backend;
    the memory and redis adapters pass every call straight to the store,
    while the memcached adapter refuses to start without its configuration
    and turns an absent key into an error. They are modelled as one class
    tagged with its backend. */
module Adapters {
  import opened Js
  import opened Config
  import opened Keyv

  datatype Backend = RedisBackend | MemcachedBackend | MemoryBackend

  /** The namespace every adapter gives its store. */
  const Namespace: string := "request-deduplication"

  const MissingMemcachedConfig: Error := Error("Memcached configuration is required")

  /** The error of the memcached adapter for a key with no value. */
  function NotFound(key: string): Error
  {
    Error("Key " + key + " not found")
  }

  /** What callers can observe of an adapter: its backend and, once `init`
      has succeeded, the state of its store. */
  datatype AdapterView = AdapterView(kind: Backend, store: Option<KeyvState>)

  /** The store an adapter's `init` connects to. */
  function ConnectionFor(kind: Backend, o: Options): (c: Connection)
    requires kind == MemcachedBackend ==> o.memcachedConfig.Has?
    ensures c.InProcess? <==> kind == MemoryBackend
    ensures c.RedisServer? <==> kind == RedisBackend
    ensures c.RedisServer? ==> c.redis == o.redisConfig
    ensures c.MemcachedServer? ==> c.memcached == o.memcachedConfig.v && c.uri == o.memcachedConfig.v.uri
  {
    match kind
    case MemoryBackend => InProcess
    case RedisBackend => RedisServer(o.redisConfig)
    case MemcachedBackend => MemcachedServer(o.memcachedConfig.v.uri, o.memcachedConfig.v)
  }

  /** What `init` returns: the memcached adapter fails without its
      configuration; otherwise `init` fails only if building the store
      fails. */
  function InitOutcome(kind: Backend, o: Options, fault: Option<Error>): (r: Outcome)
    ensures kind == MemcachedBackend && !o.memcachedConfig.Has? ==> r == Fail(MissingMemcachedConfig)
    ensures (kind != MemcachedBackend || o.memcachedConfig.Has?) ==>
      (r.Pass? <==> fault.None?) && (fault.Some? ==> r == Fail(fault.value))
  {
    if kind == MemcachedBackend && !o.memcachedConfig.Has? then Fail(MissingMemcachedConfig)
    else if fault.Some? then Fail(fault.value)
    else Pass
  }

  /** `get(key)`. Before a successful `init` there is no store and reading it
      throws. The memcached adapter throws for a key whose value is
      `undefined`; the others return it. */
  function AdapterGet(a: AdapterView, key: string, fault: Option<Error>): (r: Result<Value>)
    ensures a.store.None? ==> r == Err(UndefinedReceiver("get"))
    ensures a.store.Some? && fault.Some? ==> r == Err(fault.value)
    ensures a.store.Some? && fault.None? && a.kind == MemcachedBackend ==>
      r == if Lookup(a.store.value, key) == Undefined then Err(NotFound(key)) else Ok(Lookup(a.store.value, key))
    ensures a.store.Some? && fault.None? && a.kind != MemcachedBackend ==> r == Ok(Lookup(a.store.value, key))
  {
    if a.store.None? then Err(UndefinedReceiver("get"))
    else if fault.Some? then Err(fault.value)
    else
      var value := Lookup(a.store.value, key);
      if a.kind == MemcachedBackend && value == Undefined then Err(NotFound(key)) else Ok(value)
  }

  /** `set(key, value, ttl)`: forwarded unchanged to the store; a store
      failure propagates and leaves the store as it was. */
  function AdapterSet(a: AdapterView, key: string, value: Value, ttl: Option<int>, fault: Option<Error>): (r: (Outcome, AdapterView))
    ensures r.1.kind == a.kind && r.1.store.Some? == a.store.Some?
    ensures a.store.None? ==> r == (Fail(UndefinedReceiver("set")), a)
    ensures a.store.Some? && fault.Some? ==> r == (Fail(fault.value), a)
    ensures a.store.Some? && fault.None? ==> r.0 == Pass && r.1.store == Some(Put(a.store.value, key, value, ttl))
  {
    if a.store.None? then (Fail(UndefinedReceiver("set")), a)
    else if fault.Some? then (Fail(fault.value), a)
    else (Pass, a.(store := Some(Put(a.store.value, key, value, ttl))))
  }

  /** `delete(key)`: forwarded unchanged to the store. */
  function AdapterDelete(a: AdapterView, key: string, fault: Option<Error>): (r: (Outcome, AdapterView))
    ensures r.1.kind == a.kind && r.1.store.Some? == a.store.Some?
    ensures a.store.None? ==> r == (Fail(UndefinedReceiver("delete")), a)
    ensures a.store.Some? && fault.Some? ==> r == (Fail(fault.value), a)
    ensures a.store.Some? && fault.None? ==> r.0 == Pass && r.1.store == Some(Remove(a.store.value, key))
  {
    if a.store.None? then (Fail(UndefinedReceiver("delete")), a)
    else if fault.Some? then (Fail(fault.value), a)
    else (Pass, a.(store := Some(Remove(a.store.value, key))))
  }

  /** Under memcached a key with no value is an error, never `undefined`;
      under the other backends `get` never invents an error of its own. */
  lemma GetErrorsByBackend(a: AdapterView, key: string)
    requires a.store.Some?
    ensures a.kind == MemcachedBackend ==>
      (AdapterGet(a, key, None) == Err(NotFound(key)) <==> !Live(a.store.value, key) || a.store.value.entries[key].value == Undefined)
    ensures a.kind != MemcachedBackend ==> AdapterGet(a, key, None).Ok?
  {
  }

  /** On every backend, a value written by `set` is what the next `get`
      returns, unless that value is `undefined`. */
  lemma GetAfterSet(a: AdapterView, key: string, value: Value, ttl: Option<int>)
    requires a.store.Some? && value != Undefined
    ensures AdapterGet(AdapterSet(a, key, value, ttl, None).1, key, None) == Ok(value)
  {
  }

  class StorageAdapter {
    const kind: Backend
    const options: Options
    var keyv: KeyvStore?

    function View(): AdapterView
      reads this, keyv
    {
      AdapterView(kind, if keyv == null then None else Some(keyv.State()))
    }

    constructor (kind: Backend, options: Options)
      ensures this.kind == kind && this.options == options && keyv == null
    {
      this.kind := kind;
      this.options := options;
      keyv := null;
    }

    /** Build the store under the shared namespace. A failure leaves the
        adapter without a store. The memory adapter's store starts empty;
        the redis and memcached adapters see what their server (`server`)
        already holds. */
    method Init(fault: Option<Error>, server: KeyvState) returns (o: Outcome)
      modifies this
      ensures o == InitOutcome(kind, options, fault)
      ensures o.Fail? ==> keyv == old(keyv)
      ensures o.Pass? ==> fresh(keyv) && keyv.namespace == Namespace
      ensures o.Pass? ==> keyv.connection == ConnectionFor(kind, options)
      ensures o.Pass? ==> keyv.State() == if kind == MemoryBackend then EmptyStore else server
    {
      if kind == MemcachedBackend && !options.memcachedConfig.Has? {
        return Fail(MissingMemcachedConfig);
      }
      if fault.Some? {
        return Fail(fault.value);
      }
      keyv := new KeyvStore(Namespace, ConnectionFor(kind, options), server);
      o := Pass;
    }

    method Get(key: string, fault: Option<Error>) returns (r: Result<Value>)
      ensures r == AdapterGet(View(), key, fault)
    {
      if keyv == null {
        return Err(UndefinedReceiver("get"));
      }
      r := keyv.Get(key, fault);
      if kind == MemcachedBackend && r == Ok(Undefined) {
        r := Err(NotFound(key));
      }
    }

    method Set(key: string, value: Value, ttl: Option<int>, fault: Option<Error>) returns (o: Outcome)
      modifies keyv
      ensures keyv == old(keyv)
      ensures (o, View()) == AdapterSet(old(View()), key, value, ttl, fault)
    {
      if keyv == null {
        return Fail(UndefinedReceiver("set"));
      }
      o := keyv.Set(key, value, ttl, fault);
    }

    method Delete(key: string, fault: Option<Error>) returns (o: Outcome)
      modifies keyv
      ensures keyv == old(keyv)
      ensures (o, View()) == AdapterDelete(old(View()), key, fault)
    {
      if keyv == null {
        return Fail(UndefinedReceiver("delete"));
      }
      o := keyv.Delete(key, fault);
    }
  }
}
