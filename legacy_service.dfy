/** The deduplication engine of the original module. It keeps one storage
    object for the whole process: the in-process table (`MemoryStorage`),
    or a redis or memcached client wrapper. The client wrappers are not part
    of this model: what their calls answer is given to each operation as a
    parameter, and they keep no state the engine can observe. */
module LegacyDedup {
  import opened Js
  import opened Config
  import opened MemoryStore

  datatype LegacyBackend = LegacyRedis | LegacyMemcached | LegacyMemory

  /** The storage `initStorage` builds: a redis configuration object first,
      then a non-empty memcached server address, otherwise memory. */
  function ChooseLegacyBackend(o: LegacyOptions): (b: LegacyBackend)
    ensures b == LegacyRedis <==> o.redisConfig.Some?
    ensures b == LegacyMemcached <==> o.redisConfig.None? && o.memcachedServer.Some? && o.memcachedServer.value != ""
    ensures b == LegacyMemory <==> o.redisConfig.None? && (o.memcachedServer.None? || o.memcachedServer.value == "")
  {
    if o.redisConfig.Some? then LegacyRedis
    else if o.memcachedServer.Some? && Truthy(Str(o.memcachedServer.value)) then LegacyMemcached
    else LegacyMemory
  }

  /** Neither `storage`, `ttl`, `redisUrl` nor `exclude` takes part in the
      choice. */
  lemma LegacyChoiceIgnoresOtherFields(o: LegacyOptions, storage: StorageType, ttl: int,
                                       redisUrl: Option<string>, exclude: Option<seq<string>>)
    ensures ChooseLegacyBackend(o.(storage := storage, ttl := ttl, redisUrl := redisUrl, exclude := exclude)) ==
            ChooseLegacyBackend(o)
  {
  }

  /** The error `initStorage` of a client wrapper throws when it cannot
      build its client: the client constructor throws, or (for memcached,
      whose library is imported at that point) the library fails to load. */
  function MissingDependency(b: LegacyBackend): (e: Error)
    ensures e.message == "Missing dependency: " + (if b == LegacyRedis then "ioredis" else "memcached")
  {
    if b == LegacyRedis then Error("Missing dependency: ioredis") else Error("Missing dependency: memcached")
  }

  /** What the slot `RequestDeduplicationService.storageInstance` holds, as
      far as the engine can observe it. */
  datatype LegacySlot = NoStorage | Remote(kind: LegacyBackend) | InMemory(table: MemState)

  /** `processRequest(key, value, ttl)` against the slot: the result and the
      slot afterwards. A remote storage's `get` and `set` answer
      `remoteGet` and `remoteSet`. */
  function LegacyProcessSpec(slot: LegacySlot, key: string, value: Value, ttl: int,
                             remoteGet: Result<Value>, remoteSet: Outcome): (r: (Result<bool>, LegacySlot))
    ensures slot.NoStorage? ==> r == (Err(UndefinedReceiver("get")), slot)
    ensures r.0 != Ok(true) ==> r.1 == slot
    ensures slot.Remote? ==> r.1 == slot
    ensures slot.InMemory? ==> r.0.Ok? && r.1.InMemory? && r.1.table.now == slot.table.now
  {
    match slot
    case NoStorage => (Err(UndefinedReceiver("get")), slot)
    case InMemory(s) =>
      if Truthy(GetStep(s, key)) then (Ok(false), slot)
      else (Ok(true), InMemory(SetStep(s, key, value, Some(ttl))))
    case Remote(_) =>
      match remoteGet
      case Err(e) => (Err(e), slot)
      case Ok(existing) =>
        if Truthy(existing) then (Ok(false), slot)
        else
          match remoteSet
          case Fail(e) => (Err(e), slot)
          case Pass => (Ok(true), slot)
  }

  /** `deleteRequest(key)`: only the in-process table changes; every error
      (including the missing storage) is swallowed. */
  function LegacyDeleteSpec(slot: LegacySlot, key: string): (r: LegacySlot)
    ensures r.InMemory? <==> slot.InMemory?
    ensures !slot.InMemory? ==> r == slot
  {
    if slot.InMemory? then InMemory(DeleteStep(slot.table, key)) else slot
  }

  /** A key the table has never seen is admitted, and the marker is then
      what the table holds for it. */
  lemma LegacyFirstSeenAdmitted(s: MemState, key: string, value: Value, ttl: int)
    requires key != "" && key !in s.cache
    ensures
      var r := LegacyProcessSpec(InMemory(s), key, value, ttl, Ok(Undefined), Pass);
      r.0 == Ok(true) && GetStep(r.1.table, key) == value
  {
    GetOfUnsetKey(s, key);
    GetAfterSet(s, key, value, Some(ttl));
  }

  /** Once a request with a truthy marker is admitted under a non-empty key,
      the next request for that key is rejected and changes nothing. */
  lemma LegacySecondRequestRejected(s: MemState, key: string, value: Value, ttl: int,
                                    value2: Value, ttl2: int, remoteGet: Result<Value>, remoteSet: Outcome)
    requires key != "" && Truthy(value)
    requires LegacyProcessSpec(InMemory(s), key, value, ttl, remoteGet, remoteSet).0 == Ok(true)
    ensures
      var after := LegacyProcessSpec(InMemory(s), key, value, ttl, remoteGet, remoteSet).1;
      LegacyProcessSpec(after, key, value2, ttl2, remoteGet, remoteSet) == (Ok(false), after)
  {
    GetAfterSet(s, key, value, Some(ttl));
  }

  /** Until its timer fires, an admitted key is still rejected: `dt` short of
      the timer delay (or any `dt` for a ttl of 0), provided no earlier
      deletion of the key falls due in the meantime. */
  lemma LegacyRejectedWithinTtl(s: MemState, key: string, value: Value, ttl: int, dt: nat,
                                value2: Value, ttl2: int)
    requires key != "" && Truthy(value)
    requires ttl == 0 || dt < TimerDelay(ttl)
    requires forall i :: 0 <= i < |s.timers| && s.timers[i].key == key ==> s.timers[i].deadline > s.now + dt
    requires LegacyProcessSpec(InMemory(s), key, value, ttl, Ok(Undefined), Pass).0 == Ok(true)
    ensures
      var after := LegacyProcessSpec(InMemory(s), key, value, ttl, Ok(Undefined), Pass).1;
      var later := InMemory(AdvanceStep(after.table, dt));
      LegacyProcessSpec(later, key, value2, ttl2, Ok(Undefined), Pass) == (Ok(false), later)
  {
    LivesUntilItsTimer(s, key, value, Some(ttl), dt);
  }

  /** The table ignores the empty key, so a request under it is admitted
      every time and never recorded. */
  lemma LegacyEmptyKeyAlwaysAdmitted(s: MemState, value: Value, ttl: int,
                                     remoteGet: Result<Value>, remoteSet: Outcome)
    ensures LegacyProcessSpec(InMemory(s), "", value, ttl, remoteGet, remoteSet) == (Ok(true), InMemory(s))
  {
    EmptyKeyIsIgnored(s, value, Some(ttl));
  }

  /** Once the timer of an admitted request has fired, the same key is
      admitted again. */
  lemma LegacyExpiredKeyAdmittedAgain(s: MemState, key: string, value: Value, ttl: int, dt: nat)
    requires key != "" && ttl != 0 && dt >= TimerDelay(ttl)
    requires LegacyProcessSpec(InMemory(s), key, value, ttl, Ok(Undefined), Pass).0 == Ok(true)
    ensures
      var after := LegacyProcessSpec(InMemory(s), key, value, ttl, Ok(Undefined), Pass).1;
      LegacyProcessSpec(InMemory(AdvanceStep(after.table, dt)), key, value, ttl, Ok(Undefined), Pass).0 == Ok(true)
  {
    ExpiresAfterTtl(s, key, value, Some(ttl), dt);
  }

  /** Against a remote storage, an error of `get` or `set` is rethrown as it
      is, and a truthy answer of `get` rejects without a `set`. */
  lemma LegacyRemoteOutcomes(kind: LegacyBackend, key: string, value: Value, ttl: int,
                             remoteGet: Result<Value>, remoteSet: Outcome)
    ensures remoteGet.Err? ==> LegacyProcessSpec(Remote(kind), key, value, ttl, remoteGet, remoteSet).0 == Err(remoteGet.error)
    ensures remoteGet.Ok? && Truthy(remoteGet.value) ==>
      LegacyProcessSpec(Remote(kind), key, value, ttl, remoteGet, remoteSet).0 == Ok(false)
    ensures remoteGet.Ok? && !Truthy(remoteGet.value) ==>
      LegacyProcessSpec(Remote(kind), key, value, ttl, remoteGet, remoteSet).0 ==
        (if remoteSet.Fail? then Err(remoteSet.error) else Ok(true))
  {
  }

  /** After `deleteRequest`, a non-empty key is admitted again by the table. */
  lemma LegacyDeleteThenAdmit(s: MemState, key: string, value: Value, ttl: int)
    requires key != ""
    ensures LegacyProcessSpec(LegacyDeleteSpec(InMemory(s), key), key, value, ttl, Ok(Undefined), Pass).0 == Ok(true)
  {
    DeleteRemovesOnlyItsKey(s, key);
  }

  /** The class-level slot `RequestDeduplicationService.storageInstance`:
      which storage it holds and, for memory, the table object. */
  class LegacyStatics {
    var storageKind: Option<LegacyBackend>
    var table: MemoryStorage?
    const memoryStatics: MemoryStorageStatics

    constructor (memoryStatics: MemoryStorageStatics)
      ensures storageKind.None? && table == null && this.memoryStatics == memoryStatics
    {
      storageKind := None;
      table := null;
      this.memoryStatics := memoryStatics;
    }

    /** The memory slot holds the process-wide table, and that table keeps
        its own invariant. */
    ghost predicate Valid()
      reads this, memoryStatics, memoryStatics.instance
    {
      (table != null <==> storageKind == Some(LegacyMemory)) &&
      (table != null ==> table == memoryStatics.instance) &&
      (memoryStatics.instance != null ==> memoryStatics.instance.Valid())
    }
  }

  class LegacyDeduplicationService {
    const options: LegacyOptions
    const statics: LegacyStatics

    constructor (options: LegacyOptions, statics: LegacyStatics)
      ensures this.options == options && this.statics == statics
    {
      this.options := options;
      this.statics := statics;
    }

    function Slot(): LegacySlot
      reads statics, statics.table
    {
      if statics.table != null then InMemory(statics.table.State())
      else if statics.storageKind.Some? then Remote(statics.storageKind.value)
      else NoStorage
    }

    /** `onModuleInit`, i.e. `initStorage`: nothing happens once the slot is
        filled. Otherwise the chosen storage is put in the slot and started.
        The memory storage is the process-wide table, created by the first
        construction and reused by every later one; a client wrapper fails
        to start when it cannot build its client (`clientBuilt` is false),
        and stays in the slot. */
    method OnModuleInit(clientBuilt: bool) returns (o: Outcome)
      requires statics.Valid()
      modifies statics, statics.memoryStatics, statics.memoryStatics.instance
      ensures statics.Valid()
      ensures old(statics.storageKind).Some? ==>
        o == Pass && statics.storageKind == old(statics.storageKind) && statics.table == old(statics.table) && Slot() == old(Slot())
      ensures old(statics.storageKind).None? ==> statics.storageKind == Some(ChooseLegacyBackend(options))
      ensures old(statics.storageKind).None? && ChooseLegacyBackend(options) != LegacyMemory ==>
        o == (if clientBuilt then Pass else Fail(MissingDependency(ChooseLegacyBackend(options)))) &&
        Slot() == Remote(ChooseLegacyBackend(options))
      ensures old(statics.storageKind).None? && ChooseLegacyBackend(options) == LegacyMemory ==>
        o == Pass && statics.table != null && statics.table.initialized
      ensures old(statics.storageKind).None? && ChooseLegacyBackend(options) == LegacyMemory && old(statics.memoryStatics.instance) == null ==>
        fresh(statics.table) && Slot() == InMemory(MemState(map[], [], 0))
      ensures old(statics.storageKind).None? && ChooseLegacyBackend(options) == LegacyMemory && old(statics.memoryStatics.instance) != null ==>
        statics.table == old(statics.memoryStatics.instance) && Slot() == InMemory(old(statics.memoryStatics.instance.State()))
    {
      if statics.storageKind.Some? {
        return Pass;
      }
      var kind := ChooseLegacyBackend(options);
      statics.storageKind := Some(kind);
      if kind != LegacyMemory {
        o := if clientBuilt then Pass else Fail(MissingDependency(kind));
        return;
      }
      var table := NewMemoryStorage(statics.memoryStatics);
      statics.table := table;
      table.InitStorage();
      o := Pass;
    }

    method ProcessRequest(key: string, value: Value, ttl: int, remoteGet: Result<Value>, remoteSet: Outcome)
      returns (r: Result<bool>)
      requires statics.Valid()
      modifies statics.table
      ensures statics.Valid()
      ensures statics.storageKind == old(statics.storageKind) && statics.table == old(statics.table)
      ensures (r, Slot()) == LegacyProcessSpec(old(Slot()), key, value, ttl, remoteGet, remoteSet)
    {
      var table := statics.table;
      if table != null {
        var existing := table.Get(key);
        if Truthy(existing) {
          return Ok(false);
        }
        table.Set(key, value, Some(ttl));
        return Ok(true);
      }
      if statics.storageKind.None? {
        return Err(UndefinedReceiver("get"));
      }
      if remoteGet.Err? {
        return Err(remoteGet.error);
      }
      if Truthy(remoteGet.value) {
        return Ok(false);
      }
      if remoteSet.Fail? {
        return Err(remoteSet.error);
      }
      r := Ok(true);
    }

    method DeleteRequest(key: string)
      requires statics.Valid()
      modifies statics.table
      ensures statics.Valid()
      ensures statics.storageKind == old(statics.storageKind) && statics.table == old(statics.table)
      ensures Slot() == LegacyDeleteSpec(old(Slot()), key)
    {
      var table := statics.table;
      if table != null {
        table.Delete(key);
      }
    }
  }

  /** Two services over one slot, configured for memory: the second
      initialisation changes nothing, a fresh key is admitted through the
      first and then rejected through the second. */
  method OneStoragePerProcess(options1: LegacyOptions, options2: LegacyOptions, key: string)
    returns (first: Result<bool>, second: Result<bool>)
    requires ChooseLegacyBackend(options1) == LegacyMemory && key != ""
    ensures first == Ok(true) && second == Ok(false)
  {
    var memoryStatics := new MemoryStorageStatics();
    var statics := new LegacyStatics(memoryStatics);
    var s1 := new LegacyDeduplicationService(options1, statics);
    var s2 := new LegacyDeduplicationService(options2, statics);
    var _ := s1.OnModuleInit(true);
    var _ := s2.OnModuleInit(true);
    ghost var slot := s1.Slot();
    assert slot == InMemory(MemState(map[], [], 0));
    LegacyFirstSeenAdmitted(slot.table, key, Str("request_exists"), options1.ttl);
    LegacySecondRequestRejected(slot.table, key, Str("request_exists"), options1.ttl, Str("request_exists"), options1.ttl, Ok(Undefined), Pass);
    first := s1.ProcessRequest(key, Str("request_exists"), options1.ttl, Ok(Undefined), Pass);
    second := s2.ProcessRequest(key, Str("request_exists"), options1.ttl, Ok(Undefined), Pass);
  }
}
