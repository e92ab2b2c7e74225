# Request deduplication for NestJS, modelled in Dafny

This models `nestjs-request-deduplication`, a NestJS module that rejects repeated HTTP requests. Each request is hashed into a key. The engine asks a store whether the key is already there. If a truthy marker is there, the request is a duplicate. Otherwise the marker `'request_exists'` is written with a time-to-live and the request goes through.

The repository holds two generations of the module, and both are modelled:

- **The current module**:
  - `RequestDeduplicationModule.forRoot` fills in default options.
  - The engine `RequestDeduplicationService` keeps one storage adapter per process in a class-level slot.
  - The adapters are memory, redis and memcached, all over a Keyv store.
  - `RequestDeduplicationInterceptor` has two opt-outs: skip metadata on the handler and a per-request flag. It answers a duplicate with an HTTP 409 exception.
- **The original module**:
  - Its engine keeps one storage object per process. For memory this is the process-wide `MemoryStorage` table, whose entries are removed by timers.
  - Its interceptor has no opt-outs. It also hashes the route parameters, and answers a duplicate with a `{message: 'Duplicate request'}` value.
- **The example application's `ItemsService`**: a list of items changed in place.

Files and modules:

| file | module | models |
|---|---|---|
| `js.dfy` | `Js` | JavaScript values and truthiness, thrown errors, promises as `Result`/`Outcome`, optional properties |
| `options.dfy` | `Config` | option records and the `forRoot` defaults merge |
| `keyv.dfy` | `Keyv` | the Keyv store as a map with a logical clock |
| `storage_adapter.dfy` | `Adapters` | the storage adapters (memcached logic, memory and redis pass-through) |
| `dedup_service.dfy` | `Dedup` | the current engine and its adapter slot |
| `interceptor.dfy` | `Interception` | the current interceptor and its key |
| `memory_storage.dfy` | `MemoryStore` | the original in-memory table with expiry timers |
| `legacy_service.dfy` | `LegacyDedup` | the original engine and its storage slot |
| `legacy_interceptor.dfy` | `LegacyInterception` | the original interceptor and its key |
| `items.dfy` | `ItemsExample` | the example item list |

How the model maps the source:

- **State.** Code that changes state is modelled as classes with `modifies` frames: the table, the adapters, the engines, the interceptors and the item list. Each method is tied to a pure step function or specification function (`SetStep`, `AdapterGet`, `ProcessRequestSpec`, `InterceptSpec`, …). The lemmas are proved about those functions.
- **Class-level fields.** `static` fields become small objects shared by every instance: `ServiceStatics`, `LegacyStatics`, `MemoryStorageStatics`.
- **Time.** Time is a logical clock. The memory table's timers are a list of pending `(deadline, key)` deletions. Advancing the clock fires every due deletion.
- **Timer delays.** Node.js replaces a timer delay outside `[1, 2^31-1]` with 1 ms. The model does the same in `TimerDelay`.
- **The outside world.** What the outside world decides is a parameter of each operation:
  - whether a store call fails (`fault`, `getFault`, `setFault`);
  - what a remote client of the original engine answers (`remoteGet`, `remoteSet`);
  - whether a client wrapper of the original engine builds its client (`clientBuilt`);
  - what a redis or memcached server already holds when the current engine's adapter starts (`server`);
  - what the downstream handler yields (`downstream`).
- **Hashing and serialisation.** `JSON.stringify` and the SHA-256 hex digest are function-typed fields of `Crypto`. Feeding several `update` calls to the hash is hashing their concatenation.

Where the code and the module's documentation and tests disagree, the model follows the code:

- The engine does not turn the memcached adapter's `Key <k> not found` error into "no existing record". `processRequest` rethrows it, so under memcached a key seen for the first time makes the request fail and nothing is written (`Dedup.MemcachedFirstSeenFails`, `Interception.MemcachedRequestFails`).
- `MemoryStorage.set` never cancels the timer of an earlier `set` of the same key. An overwritten key is still removed when the earlier deletion falls due (`MemoryStore.EarlierTimerStillFires`, `MemoryStore.OverwriteScenario`).
- There is no way to cancel all pending timers at once.
- The backend is chosen from the configuration objects present. The `storage` field is never read.
- `forRoot` merges with an object spread. A property written explicitly as `undefined` replaces the default.

## Model

| member | source | states |
|---|---|---|
| Js.Truthy | src/services/request-deduplication.service.ts:45 | a value is falsy exactly when it is `undefined`, `null`, `false`, `0` or the empty string |
| Config.ForRoot | src/request-deduplication.module.ts:17-21 | the merged options hold `storage` and `ttl` unless the caller wrote them explicitly as `undefined` |
| Config.ForRootOfNothing | src/request-deduplication.module.ts:17-21 | empty options become exactly `{storage: MEMORY, ttl: 1000}` |
| Config.ForRootKeepsSupplied | src/request-deduplication.module.ts:17-21 | a supplied storage or ttl overrides the default; redis, memcached and exclude settings pass through unchanged |
| Config.ForRootIdempotent | src/request-deduplication.module.ts:17-21 | options already holding both fields are not changed, and merging twice equals merging once |
| MemoryStore.TimerDelay | src/storage/memory.storage.ts:36-41 | a timer fires after `ttl` ms when `ttl` is within Node's timer range, otherwise after 1 ms |
| MemoryStore.DueKeys | src/storage/memory.storage.ts:36-41 | when no timer in the queue is due, no key is deleted |
| MemoryStore.Pending | src/storage/memory.storage.ts:36-41 | the timers left after the clock moves are all in the future, and are no more than before |
| MemoryStore.SetStep | src/storage/memory.storage.ts:28-42 | `set` keeps every pending deletion in the future and does not move the clock |
| MemoryStore.DeleteStep | src/storage/memory.storage.ts:52-59 | `delete` touches no timer and does not move the clock |
| MemoryStore.GetStep | src/storage/memory.storage.ts:44-50 | an empty or absent key reads as `undefined`, and a defined result is the table's entry for the key |
| MemoryStore.AdvanceStep | src/storage/memory.storage.ts:36-41 | after the clock moves, no due deletion is left pending |
| MemoryStore.DueKeysIff | src/storage/memory.storage.ts:37-40 | a key is deleted when the clock moves exactly when one of its pending timers is due |
| MemoryStore.PendingKeepsWhatIsNotDue | src/storage/memory.storage.ts:36-41 | a timer stays queued after the clock moves exactly when it was queued and is not yet due |
| MemoryStore.PendingTwice | src/storage/memory.storage.ts:36-41 | the timers still queued after the clock reaches `x` and then `y` are those queued after it goes straight to `y` |
| MemoryStore.DueKeysTwice | src/storage/memory.storage.ts:37-40 | the keys deleted on the way to `x` and then on to `y` are those deleted on the way straight to `y` |
| MemoryStore.RunDueTwice | src/storage/memory.storage.ts:37-40 | firing the due timers at `x` and then at `y` leaves the table that firing them at `y` leaves |
| MemoryStore.AdvanceTwice | src/storage/memory.storage.ts:36-41 | moving the clock by `a` and then by `b` gives the state of moving it by `a + b` |
| MemoryStore.GetAfterSet | src/storage/memory.storage.ts:28-50 | for a non-empty key, `get` right after `set` returns the stored value |
| MemoryStore.SetLeavesOtherKeys | src/storage/memory.storage.ts:28-42 | `set` leaves every other key reading as before |
| MemoryStore.GetOfUnsetKey | src/storage/memory.storage.ts:44-50 | a key never stored reads as `undefined` |
| MemoryStore.DeleteRemovesOnlyItsKey | src/storage/memory.storage.ts:52-59 | `delete` removes its key and every other key reads as before |
| MemoryStore.EmptyKeyIsIgnored | src/storage/memory.storage.ts:28-59 | with an empty key, `set` and `delete` change nothing and `get` returns `undefined` |
| MemoryStore.OmittedTtlIs1000 | src/storage/memory.storage.ts:28 | an omitted ttl is a ttl of 1000 ms |
| MemoryStore.ExpiresAfterTtl | src/storage/memory.storage.ts:34-41 | once the delay of a non-zero ttl has passed since `set`, the key is gone |
| MemoryStore.ExpiresAfterTtlInTwoSteps | src/storage/memory.storage.ts:34-41 | once clock steps adding up to the timer delay of a non-zero ttl have passed since `set`, the key is gone |
| MemoryStore.TwoStepScenario | src/storage/memory.storage.ts:28-50 | a key set with ttl 1000 is still there after 300 ms and gone after 800 more |
| MemoryStore.ZeroTtlNeverExpires | src/storage/memory.storage.ts:36-41 | a ttl of 0 schedules no deletion, so the value stays however long the clock runs |
| MemoryStore.LivesUntilItsTimer | src/storage/memory.storage.ts:28-50 | a freshly set key keeps its value for any `dt` short of its timer delay (or any `dt` for a ttl of 0), unless an earlier deletion of the key falls due first |
| MemoryStore.EarlierTimerStillFires | src/storage/memory.storage.ts:34-41 | setting a key again does not stop an earlier pending deletion from removing it |
| MemoryStore.OverwriteScenario | src/storage/memory.storage.ts:34-41 | a key set with ttl 1000 and again after 500 ms with ttl 2000 is gone 600 ms later |
| MemoryStore.MemoryStorage.constructor | src/storage/memory.storage.ts:8-10 | a new table is empty, not initialised, with no timers |
| MemoryStore.MemoryStorage.InitStorage | src/storage/memory.storage.ts:20-26 | `initStorage` marks the table initialised; a second call changes nothing |
| MemoryStore.MemoryStorage.Set | src/storage/memory.storage.ts:28-42 | `set` produces the state of `SetStep` and keeps every timer in the future |
| MemoryStore.MemoryStorage.Get | src/storage/memory.storage.ts:44-50 | `get` returns what `GetStep` reads, and a defined result is the table's entry for a non-empty key |
| MemoryStore.MemoryStorage.Delete | src/storage/memory.storage.ts:52-59 | `delete` produces the state of `DeleteStep` |
| MemoryStore.MemoryStorage.AdvanceClock | src/storage/memory.storage.ts:37-40 | running every due timer callback deletes exactly the due keys and keeps the rest pending |
| MemoryStore.RunDueTimers | src/storage/memory.storage.ts:37-40 | one pass over the timer queue deletes exactly the keys of due timers and keeps the pending ones in order |
| MemoryStore.NewMemoryStorage | src/storage/memory.storage.ts:12-18 | the first construction creates and records the table; every later one returns that same table |
| MemoryStore.SharedTable | src/storage/memory.storage.ts:12-18 | a value written through one construction is read back through the next |
| MemoryStore.MemoryStorageStatics.constructor | src/storage/memory.storage.ts:7 | the class-level `instance` slot starts empty |
| Keyv.Lookup | src/storages/memcached.adapter.ts:29 | the store returns the value of a live entry and `undefined` otherwise |
| Keyv.Put | src/storages/memcached.adapter.ts:37 | after a store write the key reads as the written value, and every other key reads as before |
| Keyv.Remove | src/storages/memcached.adapter.ts:41 | after a store delete the key reads as `undefined`, and every other key reads as before |
| Keyv.Live | src/storages/memcached.adapter.ts:29 | a live key has an entry, and an entry without expiry is always live |
| Keyv.Deadline | src/storages/memcached.adapter.ts:37 | a positive ttl, and only one, gives the entry an expiry instant later than now |
| Keyv.Elapse | src/storages/memcached.adapter.ts:37 | letting time pass keeps the entries and moves the clock by exactly the elapsed time |
| Keyv.ExpiryFollowsTtl | src/storages/memcached.adapter.ts:29-37 | an entry written with a positive ttl still reads as its value after `dt <= ttl` ms and as `undefined` after more |
| Keyv.KeyvStore.constructor | src/storages/memcached.adapter.ts:20-24 | a store over process memory starts empty; one connected to a server sees what the server holds |
| Keyv.KeyvStore.Get | src/storages/memcached.adapter.ts:29 | a store read fails with the store's error, or returns `Lookup` of the state |
| Keyv.KeyvStore.Set | src/storages/memcached.adapter.ts:37 | a store write fails with the state unchanged, or moves the state to `Put` |
| Keyv.KeyvStore.Delete | src/storages/memcached.adapter.ts:41 | a store delete fails with the state unchanged, or moves the state to `Remove` |
| Keyv.KeyvStore.Advance | src/storages/memcached.adapter.ts:37 | the store's clock moves as `Elapse` |
| Adapters.InitOutcome | src/storages/memcached.adapter.ts:14-26 | memcached `init` fails with "Memcached configuration is required" without its configuration; otherwise `init` fails only when building the store fails |
| Adapters.ConnectionFor | src/storages/memcached.adapter.ts:19-24 | the memory adapter connects in process, redis to its redis configuration, memcached to the URI and configuration it was given |
| Adapters.AdapterGet | src/storages/memcached.adapter.ts:28-34 | memcached `get` fails with `Key <key> not found` for an undefined value and otherwise returns the stored value; store errors propagate; before `init` it throws |
| Adapters.AdapterSet | src/storages/memcached.adapter.ts:36-38 | `set` writes key, value and ttl unchanged to the store, and a store error propagates with the store unchanged |
| Adapters.AdapterDelete | src/storages/memcached.adapter.ts:40-42 | `delete` removes the key from the store, and a store error propagates with the store unchanged |
| Adapters.GetErrorsByBackend | src/storages/memcached.adapter.ts:28-34 | only memcached turns a missing key into an error, exactly when the key has no defined live value |
| Adapters.GetAfterSet | src/storages/memcached.adapter.ts:28-38 | a defined value written by `set` is what the next `get` returns, on every backend |
| Adapters.StorageAdapter.constructor | src/storages/memcached.adapter.ts:10-12 | a new adapter has its options and no store |
| Adapters.StorageAdapter.Init | src/storages/memcached.adapter.ts:14-26 | `init` returns `InitOutcome`; on success the adapter holds a fresh store under namespace `request-deduplication`, connected to its configuration: empty for memory, holding what the server already holds for redis and memcached |
| Adapters.StorageAdapter.Get | src/storages/memcached.adapter.ts:28-34 | `get` answers as `AdapterGet` |
| Adapters.StorageAdapter.Set | src/storages/memcached.adapter.ts:36-38 | `set` answers and changes the store as `AdapterSet` |
| Adapters.StorageAdapter.Delete | src/storages/memcached.adapter.ts:40-42 | `delete` answers and changes the store as `AdapterDelete` |
| Dedup.ChooseBackend | src/services/request-deduplication.service.ts:31-37 | redis when a redis configuration is present, else memcached when a memcached configuration is present, else memory |
| Dedup.ChoiceIgnoresStorageField | src/services/request-deduplication.service.ts:31-37 | the `storage` and `exclude` options do not affect the choice |
| Dedup.ChosenAdapterHasItsConfig | src/services/request-deduplication.service.ts:31-39 | the chosen adapter can fail to start only because its store fails to build |
| Dedup.ProcessRequestSpec | src/services/request-deduplication.service.ts:42-58 | without an adapter, reading it throws; an adapter stays present; anything but an admission leaves the store unchanged |
| Dedup.DeleteRequestSpec | src/services/request-deduplication.service.ts:60-67 | a successful delete removes the key from the store; every failure is swallowed and changes nothing |
| Dedup.FalsyExistingAdmits | src/services/request-deduplication.service.ts:44-53 | a falsy `get` result leads to one `set(key, value, ttl)` and `true` |
| Dedup.TruthyExistingRejects | src/services/request-deduplication.service.ts:45-48 | a truthy `get` result gives `false` and no write |
| Dedup.ErrorsAreRethrown | src/services/request-deduplication.service.ts:54-57 | errors of `get` or `set` are rethrown unchanged, and every error comes from one of them |
| Dedup.MemcachedFirstSeenFails | src/services/request-deduplication.service.ts:42-58 | under memcached a key with no live entry makes `processRequest` fail with the not-found error and write nothing |
| Dedup.MemcachedAdmitsOnlyOverFalsyValues | src/services/request-deduplication.service.ts:42-58 | under memcached a request is admitted only over a live, defined, falsy value |
| Dedup.FirstSeenAdmitted | src/services/request-deduplication.service.ts:44-53 | on memory and redis a key with no live entry is admitted |
| Dedup.SecondRequestRejected | src/services/request-deduplication.service.ts:44-53 | after an admission with a truthy marker, the next request for the key is rejected and changes nothing |
| Dedup.RejectedWithinTtl | src/services/request-deduplication.service.ts:44-53 | on every backend, after an admission with a truthy marker and `dt` ms with `dt <= ttl` (any `dt` without a positive ttl), the next request for the key is still rejected and changes nothing |
| Dedup.DeleteThenAdmit | src/services/request-deduplication.service.ts:60-67 | after `deleteRequest` the key is admitted again (memory and redis) |
| Dedup.ExpiredKeyAdmittedAgain | src/services/request-deduplication.service.ts:51 | once more than the ttl has passed after an admission, the key is admitted again (memory and redis) |
| Dedup.RequestDeduplicationService.constructor | src/services/request-deduplication.service.ts:13-16 | the service keeps its options and the shared slot |
| Dedup.RequestDeduplicationService.OnModuleInit | src/services/request-deduplication.service.ts:26-40 | a filled slot is left alone; otherwise the chosen adapter is put in the slot and started, and an `init` failure propagates; a started memory store is empty, a redis or memcached one holds what its server holds |
| Dedup.RequestDeduplicationService.ProcessRequest | src/services/request-deduplication.service.ts:42-58 | the result and the new store are those of `ProcessRequestSpec` |
| Dedup.RequestDeduplicationService.GetThenSet | src/services/request-deduplication.service.ts:44-53 | the get-then-set sequence on an adapter meets `ProcessRequestSpec` |
| Dedup.RequestDeduplicationService.DeleteRequest | src/services/request-deduplication.service.ts:60-67 | the new store is that of `DeleteRequestSpec`, and nothing is thrown |
| Dedup.OneAdapterPerProcess | src/services/request-deduplication.service.ts:26-29 | two services share one adapter, so a key admitted through one is rejected through the other, whatever the server held at start |
| Dedup.ServiceStatics.constructor | src/services/request-deduplication.service.ts:10 | the class-level adapter slot starts empty |
| Interception.OrEmpty | src/interceptors/request-deduplication.interceptor.ts:74-76 | an absent or null part is `{}`, and any other part is itself |
| Interception.KeyInput | src/interceptors/request-deduplication.interceptor.ts:68-79 | the hash input starts with the method and URL, ends with the serialised body, and is as long as method, URL, serialised headers and serialised body together |
| Interception.GenerateKey | src/interceptors/request-deduplication.interceptor.ts:68-79 | the key is the SHA-256 digest of the input of the same request with its query, route parameters and opt-out flag taken away |
| Interception.RouteOf | src/interceptors/request-deduplication.interceptor.ts:28-44 | a request passes through exactly when the handler has skip metadata or the request's flag is truthy; otherwise its key is checked |
| Interception.OnAdmission | src/interceptors/request-deduplication.interceptor.ts:46-65 | `true` yields the downstream result unchanged, `false` the 409 conflict, and an engine error propagates |
| Interception.InterceptSpec | src/interceptors/request-deduplication.interceptor.ts:27-66 | an opt-out returns the downstream result and leaves the store alone; without an adapter the `get` error propagates; an adapter stays present; a conflict or a failure leaves the store unchanged |
| Interception.SkipMetadataPassesThrough | src/interceptors/request-deduplication.interceptor.ts:28-35 | with skip metadata, the downstream result is returned and the store is untouched |
| Interception.RequestFlagPassesThrough | src/interceptors/request-deduplication.interceptor.ts:41-44 | with a truthy `skipRequestDeduplication`, the downstream result is returned and the store is untouched |
| Interception.EngineDecides | src/interceptors/request-deduplication.interceptor.ts:37-63 | the engine is asked about `(key, 'request_exists', ttl)`; `false` gives the 409 `{status: 409, error: 'Duplicate request'}` whatever downstream yields; `true` gives downstream unchanged |
| Interception.KeyIgnoresQueryAndParams | src/interceptors/request-deduplication.interceptor.ts:68-79 | the key does not depend on the query, the route parameters or the opt-out flag |
| Interception.MissingPartsHashAsEmptyObject | src/interceptors/request-deduplication.interceptor.ts:74-76 | absent or null headers and bodies hash exactly like `{}` |
| Interception.MiddleDetermined | src/interceptors/request-deduplication.interceptor.ts:68-79 | equal surroundings in the concatenated hash input force equal middle parts |
| Interception.DistinctPartsGiveDistinctInputs | src/interceptors/request-deduplication.interceptor.ts:68-79 | requests with equal method, URL and serialised headers whose serialised bodies differ feed different inputs to the hash |
| Interception.DistinctUrlsGiveDistinctInputs | src/interceptors/request-deduplication.interceptor.ts:68-79 | requests that differ only in their URL (`/items` and `/items2`) feed different inputs to the hash |
| Interception.RequestDeduplicationInterceptor.constructor | src/interceptors/request-deduplication.interceptor.ts:16-23 | the interceptor keeps its engine, options and hashing functions |
| Interception.RequestDeduplicationInterceptor.Intercept | src/interceptors/request-deduplication.interceptor.ts:27-66 | the reply and the new store are those of `InterceptSpec` |
| Interception.RepeatedRequestConflicts | src/interceptors/request-deduplication.interceptor.ts:27-66 | on memory and redis the same request twice gives the handler's result, then the 409 conflict |
| Interception.MemcachedRequestFails | src/interceptors/request-deduplication.interceptor.ts:46 | under memcached a new request fails with the not-found error and writes nothing |
| LegacyDedup.ChooseLegacyBackend | src/request-deduplication.service.ts:32-38 | redis when a redis configuration is given, else memcached when the server address is non-empty, else memory |
| LegacyDedup.LegacyChoiceIgnoresOtherFields | src/request-deduplication.service.ts:32-38 | `storage`, `ttl`, `redisUrl` and `exclude` do not affect the choice |
| LegacyDedup.LegacyProcessSpec | src/request-deduplication.service.ts:43-58 | without storage, reading it throws; the table never fails and keeps its clock; a remote storage keeps no state here; anything but an admission changes nothing |
| LegacyDedup.LegacyDeleteSpec | src/request-deduplication.service.ts:60-67 | only the in-process table changes, and every error is swallowed |
| LegacyDedup.LegacyFirstSeenAdmitted | src/request-deduplication.service.ts:45-53 | a key the table has never held is admitted, and the table then holds the marker |
| LegacyDedup.LegacySecondRequestRejected | src/request-deduplication.service.ts:45-50 | after an admission with a truthy marker, the next request for the key is rejected and changes nothing |
| LegacyDedup.LegacyRejectedWithinTtl | src/request-deduplication.service.ts:45-51 | after an admission with a truthy marker and `dt` ms short of the timer delay (any `dt` for a ttl of 0), the next request for the key is still rejected, unless an earlier deletion of the key falls due first |
| LegacyDedup.LegacyEmptyKeyAlwaysAdmitted | src/request-deduplication.service.ts:45-53 | the empty key is admitted every time and never recorded |
| LegacyDedup.LegacyExpiredKeyAdmittedAgain | src/request-deduplication.service.ts:51 | after the timer of an admission fires, the key is admitted again |
| LegacyDedup.LegacyRemoteOutcomes | src/request-deduplication.service.ts:43-58 | against a remote storage, errors are rethrown unchanged and a truthy answer rejects without a write |
| LegacyDedup.LegacyDeleteThenAdmit | src/request-deduplication.service.ts:60-67 | after `deleteRequest` a non-empty key is admitted again |
| LegacyDedup.MissingDependency | src/storage/redis.storage.ts:21-27 | a client wrapper that cannot build its client throws `Missing dependency: ioredis` (redis) or `Missing dependency: memcached` |
| LegacyDedup.LegacyStatics.constructor | src/request-deduplication.service.ts:11 | the slot starts empty |
| LegacyDedup.LegacyDeduplicationService.constructor | src/request-deduplication.service.ts:14-17 | the service keeps its options and the shared slot |
| LegacyDedup.LegacyDeduplicationService.OnModuleInit | src/request-deduplication.service.ts:19-41 | a filled slot is left alone; otherwise the chosen storage fills the slot: for memory the process-wide table, initialised; a client wrapper's failure to build its client propagates |
| LegacyDedup.LegacyDeduplicationService.ProcessRequest | src/request-deduplication.service.ts:43-58 | the result and the new table are those of `LegacyProcessSpec` |
| LegacyDedup.LegacyDeduplicationService.DeleteRequest | src/request-deduplication.service.ts:60-67 | the new table is that of `LegacyDeleteSpec`, and nothing is thrown |
| LegacyDedup.OneStoragePerProcess | src/request-deduplication.service.ts:27-41 | two services over memory share one table: a fresh key is admitted through one, then rejected through the other |
| LegacyInterception.LegacyOnAdmission | src/request-deduplication.interceptor.ts:28-39 | `true` yields the downstream result unchanged, `false` the `{message: 'Duplicate request'}` value, and an engine error propagates |
| LegacyInterception.LegacyKeyInput | src/request-deduplication.interceptor.ts:42-50 | the hash input starts with the method and URL, ends with the serialised body, and is as long as method, URL, serialised headers, parameters and body together |
| LegacyInterception.LegacyGenerateKey | src/request-deduplication.interceptor.ts:42-50 | the key is the SHA-256 digest of the input of the same request with its query and flag taken away |
| LegacyInterception.LegacyInterceptSpec | src/request-deduplication.interceptor.ts:22-40 | the reply is the downstream result, the duplicate message or a failure; anything but the downstream result leaves the slot unchanged; without storage the `get` error propagates; the table never fails |
| LegacyInterception.LegacyEngineDecides | src/request-deduplication.interceptor.ts:22-40 | the engine is asked about `(key, 'request_exists', ttl)`, and its answer decides the reply whatever downstream yields |
| LegacyInterception.LegacyIgnoresFlagAndQuery | src/request-deduplication.interceptor.ts:22-50 | the request's opt-out flag and query string do not change the outcome |
| LegacyInterception.LegacyMissingPartsHashAsEmptyObject | src/request-deduplication.interceptor.ts:46-48 | absent or null headers, parameters and bodies hash like `{}` |
| LegacyInterception.ParamsDistinguishInputs | src/request-deduplication.interceptor.ts:42-50 | requests that differ only in their serialised route parameters feed different inputs to the hash |
| LegacyInterception.LegacyRepeatedRequestIsDuplicate | src/request-deduplication.interceptor.ts:22-40 | on the in-process table the same request twice gives the handler's result, then the duplicate message |
| LegacyInterception.LegacyRequestDeduplicationInterceptor.constructor | src/request-deduplication.interceptor.ts:13-20 | the interceptor keeps its engine and the configured ttl |
| LegacyInterception.LegacyRequestDeduplicationInterceptor.Intercept | src/request-deduplication.interceptor.ts:22-40 | the reply and the new table are those of `LegacyInterceptSpec` |
| ItemsExample.FirstIndexOf | examples/memory/src/items/items.service.ts:43 | the position of the first item with the id, or -1 exactly when no item has it |
| ItemsExample.RemoveAt | examples/memory/src/items/items.service.ts:52 | removing one position shortens the list by one |
| ItemsExample.RemoveAtKeepsTheRest | examples/memory/src/items/items.service.ts:52 | removing one position keeps the order of the others and takes out exactly that item |
| ItemsExample.AppendedItemIsFound | examples/memory/src/items/items.service.ts:33-40 | after `create`, the new item is found by its id unless an earlier item has the same id |
| ItemsExample.UpdatedItemIsFound | examples/memory/src/items/items.service.ts:42-47 | after `update` with the same id, that id leads to the new item |
| ItemsExample.ItemsService.constructor | examples/memory/src/items/items.service.ts:7-18 | the list starts with items "1" and "2" |
| ItemsExample.ItemsService.FindAll | examples/memory/src/items/items.service.ts:28-31 | `findAll` returns the list |
| ItemsExample.ItemsService.FindOne | examples/memory/src/items/items.service.ts:33-35 | `findOne` returns the first item with the id, or nothing exactly when there is none |
| ItemsExample.ItemsService.Create | examples/memory/src/items/items.service.ts:37-40 | `create` appends the item at the end and returns it |
| ItemsExample.ItemsService.Update | examples/memory/src/items/items.service.ts:42-47 | `update` replaces only the first match and returns the new item; without a match it returns nothing and changes nothing |
| ItemsExample.ItemsService.Delete | examples/memory/src/items/items.service.ts:49-54 | `delete` removes exactly the first match and returns `true`; without a match it returns `false` and changes nothing |

## Left out

- Keyv internals, `@keyv/redis`, `@keyv/memcache`, ioredis and the memcached client are network clients. The store is a map with a logical clock, and whether a call fails is a parameter.
- The store's own handling of a zero or negative ttl is not modelled: such an entry never expires here.
- SHA-256 (FIPS 180-4) and `JSON.stringify` are opaque deterministic functions passed in as parameters. No collision-freedom is claimed.
- `src/storage/redis.storage.ts` and `src/storage/memcached.storage.ts` are not part of this model. Their answers to `get`, `set` and `initStorage` are parameters of the original engine. Their constructors' unawaited `initStorage`, the millisecond-to-second ttl division and their swallowing of errors are not modelled.
- `src/storages/memory.adapter.ts` and `src/storages/redis.adapter.ts` appear only as the pass-through branches of `Adapters.StorageAdapter`.
- The adapter classes are one class tagged with its backend, not three classes behind an interface.
- Interleaved requests are not modelled: the model is sequential. The race between `get` and `set` of two concurrent requests for one key is not captured, and nothing is claimed about at-most-once admission under concurrency.
- Logging, rxjs observables (including when `next.handle()` is subscribed), the `Reflector` lookup, the skip decorator, dependency injection and provider wiring are not modelled.
- Numbers are integers. `NaN`, fractional ttls and `null` ttls are not modelled.
- Timers that fall due together fire in one step. Their order does not matter here, because every callback only deletes its key.
- ItemsExample.ItemsService.FindAll: returns a copy of the list. Aliasing of the returned array, which lets a caller change the service's list, is not modelled.
- The `exclude` option is carried in the option records, but nothing reads it, as in the code.
