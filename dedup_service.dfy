/** The deduplication engine of the current module: it picks and starts one
    storage adapter for the whole process, and admits a request key by
    reading the store and, if nothing truthy is there, writing the marker. */
module Dedup {
  import opened Js
  import opened Config
  import opened Keyv
  import opened Adapters

  /** The backend `initStorage` builds: redis configuration first, then
      memcached configuration, otherwise memory. */
  function ChooseBackend(o: Options): (b: Backend)
    ensures b == RedisBackend <==> o.redisConfig.Has?
    ensures b == MemcachedBackend <==> !o.redisConfig.Has? && o.memcachedConfig.Has?
    ensures b == MemoryBackend <==> !o.redisConfig.Has? && !o.memcachedConfig.Has?
  {
    if o.redisConfig.Has? then RedisBackend
    else if o.memcachedConfig.Has? then MemcachedBackend
    else MemoryBackend
  }

  /** Neither the `storage` field nor `exclude` takes part in the choice. */
  lemma ChoiceIgnoresStorageField(o: Options, storage: Prop<StorageType>, exclude: Prop<seq<string>>)
    ensures ChooseBackend(o.(storage := storage, exclude := exclude)) == ChooseBackend(o)
  {
  }

  /** The adapter chosen can only fail to start because building its store
      failed: the memcached adapter is chosen only when its configuration is
      there. */
  lemma ChosenAdapterHasItsConfig(o: Options)
    ensures InitOutcome(ChooseBackend(o), o, None) == Pass
  {
  }

  /** `processRequest(key, value, ttl)` against the adapter slot: the result
      and the slot afterwards. With no adapter in the slot, reading it throws.
      A truthy existing value rejects; otherwise the marker is written and
      the request admitted. Every error of `get` or `set` is rethrown. */
  function ProcessRequestSpec(slot: Option<AdapterView>, key: string, value: Value, ttl: Option<int>,
                              getFault: Option<Error>, setFault: Option<Error>): (r: (Result<bool>, Option<AdapterView>))
    ensures slot.None? ==> r == (Err(UndefinedReceiver("get")), slot)
    ensures r.1.Some? <==> slot.Some?
    ensures r.0 != Ok(true) ==> r.1 == slot
  {
    if slot.None? then (Err(UndefinedReceiver("get")), slot)
    else
      match AdapterGet(slot.value, key, getFault)
      case Err(e) => (Err(e), slot)
      case Ok(existing) =>
        if Truthy(existing) then (Ok(false), slot)
        else
          var (o, a) := AdapterSet(slot.value, key, value, ttl, setFault);
          match o
          case Fail(e) => (Err(e), slot)
          case Pass => (Ok(true), Some(a))
  }

  /** `deleteRequest(key)`: the slot afterwards. Every error is swallowed. */
  function DeleteRequestSpec(slot: Option<AdapterView>, key: string, fault: Option<Error>): (r: Option<AdapterView>)
    ensures r.Some? <==> slot.Some?
    ensures slot.Some? && slot.value.store.Some? && fault.None? ==>
      r.value.store == Some(Remove(slot.value.store.value, key))
    ensures slot.None? || slot.value.store.None? || fault.Some? ==> r == slot
  {
    if slot.None? then slot else Some(AdapterDelete(slot.value, key, fault).1)
  }

  /** A falsy value from `get` leads to exactly one `set(key, value, ttl)`
      and admission. */
  lemma FalsyExistingAdmits(a: AdapterView, key: string, value: Value, ttl: Option<int>, getFault: Option<Error>)
    requires AdapterGet(a, key, getFault).Ok? && !Truthy(AdapterGet(a, key, getFault).value)
    ensures ProcessRequestSpec(Some(a), key, value, ttl, getFault, None) ==
      (Ok(true), Some(a.(store := Some(Put(a.store.value, key, value, ttl)))))
  {
  }

  /** A truthy value from `get` rejects, and nothing is written. */
  lemma TruthyExistingRejects(a: AdapterView, key: string, value: Value, ttl: Option<int>,
                              getFault: Option<Error>, setFault: Option<Error>)
    requires AdapterGet(a, key, getFault).Ok? && Truthy(AdapterGet(a, key, getFault).value)
    ensures ProcessRequestSpec(Some(a), key, value, ttl, getFault, setFault) == (Ok(false), Some(a))
  {
  }

  /** Errors are rethrown as they are, never turned into an admission or a
      rejection: an error of `get` skips the write, and an error of `set` is
      the result. */
  lemma ErrorsAreRethrown(a: AdapterView, key: string, value: Value, ttl: Option<int>,
                          getFault: Option<Error>, setFault: Option<Error>)
    ensures AdapterGet(a, key, getFault).Err? ==>
      ProcessRequestSpec(Some(a), key, value, ttl, getFault, setFault) == (Err(AdapterGet(a, key, getFault).error), Some(a))
    ensures AdapterGet(a, key, getFault).Ok? && !Truthy(AdapterGet(a, key, getFault).value) &&
            AdapterSet(a, key, value, ttl, setFault).0.Fail? ==>
      ProcessRequestSpec(Some(a), key, value, ttl, getFault, setFault) == (Err(AdapterSet(a, key, value, ttl, setFault).0.error), Some(a))
    ensures ProcessRequestSpec(Some(a), key, value, ttl, getFault, setFault).0.Err? ==>
      AdapterGet(a, key, getFault).Err? || AdapterSet(a, key, value, ttl, setFault).0.Fail?
  {
  }

  /** The memcached adapter's "not found" error is not turned into "no
      existing record": a key seen for the first time under memcached makes
      `processRequest` fail and writes nothing. */
  lemma MemcachedFirstSeenFails(s: KeyvState, key: string, value: Value, ttl: Option<int>, setFault: Option<Error>)
    requires !Live(s, key)
    ensures
      var slot := Some(AdapterView(MemcachedBackend, Some(s)));
      ProcessRequestSpec(slot, key, value, ttl, None, setFault) == (Err(NotFound(key)), slot)
  {
  }

  /** Hence under memcached a request is admitted only when its key already
      holds a value that is defined but falsy. */
  lemma MemcachedAdmitsOnlyOverFalsyValues(s: KeyvState, key: string, value: Value, ttl: Option<int>,
                                           getFault: Option<Error>, setFault: Option<Error>)
    requires ProcessRequestSpec(Some(AdapterView(MemcachedBackend, Some(s))), key, value, ttl, getFault, setFault).0 == Ok(true)
    ensures Live(s, key) && Lookup(s, key) != Undefined && !Truthy(Lookup(s, key))
  {
  }

  /** On the other backends a key with no live entry is admitted. */
  lemma FirstSeenAdmitted(kind: Backend, s: KeyvState, key: string, value: Value, ttl: Option<int>)
    requires kind != MemcachedBackend && !Live(s, key)
    ensures ProcessRequestSpec(Some(AdapterView(kind, Some(s))), key, value, ttl, None, None).0 == Ok(true)
  {
  }

  /** Once a request with a truthy marker is admitted, the same key is
      rejected by the next call, on every backend. */
  lemma SecondRequestRejected(slot: Option<AdapterView>, key: string, value: Value, ttl: Option<int>,
                              getFault: Option<Error>, setFault: Option<Error>, value2: Value, ttl2: Option<int>)
    requires Truthy(value)
    requires ProcessRequestSpec(slot, key, value, ttl, getFault, setFault).0 == Ok(true)
    ensures
      var after := ProcessRequestSpec(slot, key, value, ttl, getFault, setFault).1;
      ProcessRequestSpec(after, key, value2, ttl2, None, None) == (Ok(false), after)
  {
    var a := slot.value;
    var after := ProcessRequestSpec(slot, key, value, ttl, getFault, setFault).1;
    assert after == Some(a.(store := Some(Put(a.store.value, key, value, ttl))));
    GetAfterSet(a, key, value, ttl);
  }

  /** While the ttl has not run out, the same key is still rejected on every
      backend: a positive ttl keeps the marker for `ttl` milliseconds, and no
      ttl or a non-positive one keeps it for good. */
  lemma RejectedWithinTtl(kind: Backend, s: KeyvState, key: string, value: Value, ttl: Option<int>, dt: nat,
                          getFault: Option<Error>, setFault: Option<Error>, value2: Value, ttl2: Option<int>)
    requires Truthy(value)
    requires ttl.Some? && ttl.value > 0 ==> dt <= ttl.value
    requires ProcessRequestSpec(Some(AdapterView(kind, Some(s))), key, value, ttl, getFault, setFault).0 == Ok(true)
    ensures
      var after := ProcessRequestSpec(Some(AdapterView(kind, Some(s))), key, value, ttl, getFault, setFault).1;
      var later := Some(AdapterView(kind, Some(Elapse(after.value.store.value, dt))));
      ProcessRequestSpec(later, key, value2, ttl2, None, None) == (Ok(false), later)
  {
    var after := ProcessRequestSpec(Some(AdapterView(kind, Some(s))), key, value, ttl, getFault, setFault).1;
    assert after == Some(AdapterView(kind, Some(Put(s, key, value, ttl))));
    if ttl.Some? && ttl.value > 0 {
      ExpiryFollowsTtl(s, key, value, ttl.value, dt);
    } else {
      assert Deadline(s.now, ttl) == None;
    }
  }

  /** After `deleteRequest`, the key is admitted again even before its ttl
      has passed (on the backends whose `get` returns absent keys). */
  lemma DeleteThenAdmit(kind: Backend, s: KeyvState, key: string, value: Value, ttl: Option<int>)
    requires kind != MemcachedBackend
    ensures
      var after := DeleteRequestSpec(Some(AdapterView(kind, Some(s))), key, None);
      ProcessRequestSpec(after, key, value, ttl, None, None).0 == Ok(true)
  {
  }

  /** After more than the ttl has passed, the record has expired and the key
      is admitted again (on the backends whose `get` returns absent keys). */
  lemma ExpiredKeyAdmittedAgain(kind: Backend, s: KeyvState, key: string, value: Value, ttl: int, dt: nat)
    requires kind != MemcachedBackend && ttl > 0 && dt > ttl
    requires ProcessRequestSpec(Some(AdapterView(kind, Some(s))), key, value, Some(ttl), None, None).0 == Ok(true)
    ensures
      var after := ProcessRequestSpec(Some(AdapterView(kind, Some(s))), key, value, Some(ttl), None, None).1;
      var later := Some(AdapterView(kind, Some(Elapse(after.value.store.value, dt))));
      ProcessRequestSpec(later, key, value, Some(ttl), None, None).0 == Ok(true)
  {
    ExpiryFollowsTtl(s, key, value, ttl, dt);
  }

  /** The class-level slot `RequestDeduplicationService.storageAdapter`,
      shared by every instance of the service. */
  class ServiceStatics {
    var storageAdapter: StorageAdapter?

    constructor ()
      ensures storageAdapter == null
    {
      storageAdapter := null;
    }
  }

  class RequestDeduplicationService {
    const options: Options
    const statics: ServiceStatics

    constructor (options: Options, statics: ServiceStatics)
      ensures this.options == options && this.statics == statics
    {
      this.options := options;
      this.statics := statics;
    }

    /** The objects `processRequest` and `deleteRequest` may change: the
        store of the adapter in the slot. */
    function StoreFrame(): set<object>
      reads statics, statics.storageAdapter
    {
      if statics.storageAdapter == null || statics.storageAdapter.keyv == null then {}
      else {statics.storageAdapter.keyv}
    }

    function Slot(): Option<AdapterView>
      reads statics, statics.storageAdapter, StoreFrame()
    {
      if statics.storageAdapter == null then None else Some(statics.storageAdapter.View())
    }

    /** `onModuleInit`, i.e. `initStorage`: nothing happens when the slot is
        already filled. Otherwise the chosen adapter is put in the slot and
        started; a failure to start propagates, and the adapter stays in the
        slot without a store. A redis or memcached store starts with what its
        server (`server`) already holds, the memory store empty. */
    method OnModuleInit(fault: Option<Error>, server: KeyvState) returns (o: Outcome)
      modifies statics
      ensures old(statics.storageAdapter) != null ==>
        o == Pass && statics.storageAdapter == old(statics.storageAdapter) && Slot() == old(Slot())
      ensures old(statics.storageAdapter) == null ==>
        fresh(statics.storageAdapter) && statics.storageAdapter.kind == ChooseBackend(options) &&
        (statics.storageAdapter.keyv != null ==> fresh(statics.storageAdapter.keyv)) &&
        o == InitOutcome(ChooseBackend(options), options, fault)
      ensures old(statics.storageAdapter) == null ==>
        Slot() == Some(AdapterView(ChooseBackend(options),
          if o.Fail? then None else if ChooseBackend(options) == MemoryBackend then Some(EmptyStore) else Some(server)))
    {
      if statics.storageAdapter != null {
        return Pass;
      }
      var adapter := new StorageAdapter(ChooseBackend(options), options);
      statics.storageAdapter := adapter;
      o := adapter.Init(fault, server);
    }

    method ProcessRequest(key: string, value: Value, ttl: Option<int>, getFault: Option<Error>, setFault: Option<Error>)
      returns (r: Result<bool>)
      modifies StoreFrame()
      ensures statics.storageAdapter == old(statics.storageAdapter)
      ensures statics.storageAdapter != null ==> statics.storageAdapter.keyv == old(statics.storageAdapter.keyv)
      ensures (r, Slot()) == ProcessRequestSpec(old(Slot()), key, value, ttl, getFault, setFault)
    {
      var adapter := statics.storageAdapter;
      if adapter == null {
        return Err(UndefinedReceiver("get"));
      }
      r := GetThenSet(adapter, key, value, ttl, getFault, setFault);
    }

    /** The body of `processRequest` once the adapter is read off the slot. */
    static method GetThenSet(adapter: StorageAdapter, key: string, value: Value, ttl: Option<int>,
                             getFault: Option<Error>, setFault: Option<Error>) returns (r: Result<bool>)
      modifies adapter.keyv
      ensures adapter.keyv == old(adapter.keyv)
      ensures (r, Some(adapter.View())) == ProcessRequestSpec(Some(old(adapter.View())), key, value, ttl, getFault, setFault)
    {
      ghost var before := adapter.View();
      ghost var spec := ProcessRequestSpec(Some(before), key, value, ttl, getFault, setFault);
      var existing := adapter.Get(key, getFault);
      if existing.Err? {
        assert spec == (Err(existing.error), Some(before));
        return Err(existing.error);
      }
      if Truthy(existing.value) {
        assert spec == (Ok(false), Some(before));
        return Ok(false);
      }
      var o := adapter.Set(key, value, ttl, setFault);
      assert spec == (if o.Fail? then Err(o.error) else Ok(true), if o.Fail? then Some(before) else Some(adapter.View()));
      if o.Fail? {
        return Err(o.error);
      }
      r := Ok(true);
    }

    method DeleteRequest(key: string, fault: Option<Error>)
      modifies StoreFrame()
      ensures statics.storageAdapter == old(statics.storageAdapter)
      ensures statics.storageAdapter != null ==> statics.storageAdapter.keyv == old(statics.storageAdapter.keyv)
      ensures Slot() == DeleteRequestSpec(old(Slot()), key, fault)
    {
      var adapter := statics.storageAdapter;
      if adapter == null {
        return;
      }
      var _ := adapter.Delete(key, fault);
    }
  }

  /** Two services built over the same slot share one adapter: initialising
      the second changes nothing, and a key admitted through the first is
      rejected through the second. */
  method OneAdapterPerProcess(options1: Options, options2: Options, key: string, server: KeyvState)
    returns (first: Result<bool>, second: Result<bool>)
    ensures first == Ok(true) ==> second == Ok(false)
  {
    var statics := new ServiceStatics();
    var s1 := new RequestDeduplicationService(options1, statics);
    var s2 := new RequestDeduplicationService(options2, statics);
    var _ := s1.OnModuleInit(None, server);
    var adapter := statics.storageAdapter;
    var _ := s2.OnModuleInit(None, server);
    assert statics.storageAdapter == adapter;
    ghost var slot := s1.Slot();
    first := s1.ProcessRequest(key, Str("request_exists"), Some(1000), None, None);
    second := s2.ProcessRequest(key, Str("request_exists"), Some(1000), None, None);
    if first == Ok(true) {
      SecondRequestRejected(slot, key, Str("request_exists"), Some(1000), None, None, Str("request_exists"), Some(1000));
    }
  }
}
