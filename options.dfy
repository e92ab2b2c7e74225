/** Module options: the configuration object the deduplication module is
    given once, and the defaults `forRoot` merges into it. */
module Config {
  import opened Js

  datatype StorageType = Memory | Redis | Memcached

  /** The connection settings handed to the memcached client. */
  datatype MemcachedConfig = MemcachedConfig(uri: string, clientOptions: map<string, Value>)

  /** The connection settings handed to the redis client (url, host, port…). */
  datatype RedisConfig = RedisConfig(settings: map<string, Value>)

  /** The options of the current module. Every property is optional; `exclude`
      is declared but read by nothing. */
  datatype Options = Options(
    storage: Prop<StorageType>,
    ttl: Prop<int>,
    memcachedConfig: Prop<MemcachedConfig>,
    redisConfig: Prop<RedisConfig>,
    exclude: Prop<seq<string>>)

  /** The options of the original module: `storage` and `ttl` are required. */
  datatype LegacyOptions = LegacyOptions(
    storage: StorageType,
    ttl: int,
    redisUrl: Option<string>,
    memcachedServer: Option<string>,
    redisConfig: Option<RedisConfig>,
    exclude: Option<seq<string>>)

  const DefaultTtl: int := 1000

  const NoOptions: Options := Options(Missing, Missing, Missing, Missing, Missing)

  /** The object spread `{storage: MEMORY, ttl: 1000, ...options}`: a property
      the caller wrote, even as `undefined`, replaces the default. */
  function ForRoot(o: Options): (r: Options)
    ensures r.storage.Has? <==> !o.storage.SetUndefined?
    ensures r.ttl.Has? <==> !o.ttl.SetUndefined?
  {
    Options(
      if o.storage.Missing? then Has(Memory) else o.storage,
      if o.ttl.Missing? then Has(DefaultTtl) else o.ttl,
      o.memcachedConfig,
      o.redisConfig,
      o.exclude)
  }

  /** Empty options yield `{storage: MEMORY, ttl: 1000}` and nothing else. */
  lemma ForRootOfNothing()
    ensures ForRoot(NoOptions) == Options(Has(Memory), Has(1000), Missing, Missing, Missing)
  {
  }

  /** A supplied storage or ttl wins over the default; every other supplied
      property is passed on unchanged. */
  lemma ForRootKeepsSupplied(o: Options)
    ensures o.storage.Has? ==> ForRoot(o).storage == o.storage
    ensures o.ttl.Has? ==> ForRoot(o).ttl == o.ttl
    ensures ForRoot(o).memcachedConfig == o.memcachedConfig
    ensures ForRoot(o).redisConfig == o.redisConfig
    ensures ForRoot(o).exclude == o.exclude
  {
  }

  /** Options that already hold both fields are left exactly as they are, so
      merging twice is merging once. */
  lemma ForRootIdempotent(o: Options)
    ensures o.storage.Has? && o.ttl.Has? ==> ForRoot(o) == o
    ensures ForRoot(ForRoot(o)) == ForRoot(o)
  {
  }
}
