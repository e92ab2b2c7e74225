/** The key-value store behind the storage adapters (a Keyv instance over
    process memory, redis or memcached), seen as an abstract map with a
    logical clock. Failures of the store itself (the network, the server)
    are not decided by the model: each operation is told by a `fault`
    parameter whether the outside world made it fail. */
module Keyv {
  import opened Js
  import opened Config

  /** A stored value and the instant after which it reads as absent. */
  datatype Entry = Entry(value: Value, expires: Option<int>)

  datatype KeyvState = KeyvState(entries: map<string, Entry>, now: int)

  /** Where a store keeps its entries. */
  datatype Connection =
    | InProcess
    | RedisServer(redis: Prop<RedisConfig>)
    | MemcachedServer(uri: string, memcached: MemcachedConfig)

  const EmptyStore: KeyvState := KeyvState(map[], 0)

  /** The key holds an entry that has not expired. */
  predicate Live(s: KeyvState, key: string)
    ensures Live(s, key) ==> key in s.entries
    ensures key in s.entries && s.entries[key].expires.None? ==> Live(s, key)
  {
    key in s.entries && (s.entries[key].expires.None? || s.now <= s.entries[key].expires.value)
  }

  /** `keyv.get(key)`: the live value, or `undefined`. */
  function Lookup(s: KeyvState, key: string): (v: Value)
    ensures Live(s, key) ==> v == s.entries[key].value
    ensures !Live(s, key) ==> v == Undefined
  {
    if Live(s, key) then s.entries[key].value else Undefined
  }

  /** A positive ttl makes the entry expire that many milliseconds from now;
      no ttl, or one that is not positive, keeps it until it is deleted. */
  function Deadline(now: int, ttl: Option<int>): (d: Option<int>)
    ensures d.Some? <==> ttl.Some? && ttl.value > 0
    ensures d.Some? ==> d.value > now
  {
    if ttl.Some? && ttl.value > 0 then Some(now + ttl.value) else None
  }

  /** `keyv.set(key, value, ttl)`. */
  function Put(s: KeyvState, key: string, value: Value, ttl: Option<int>): (s': KeyvState)
    ensures Lookup(s', key) == value
    ensures forall k :: k != key ==> Lookup(s', k) == Lookup(s, k)
    ensures s'.now == s.now
  {
    KeyvState(s.entries[key := Entry(value, Deadline(s.now, ttl))], s.now)
  }

  /** `keyv.delete(key)`. */
  function Remove(s: KeyvState, key: string): (s': KeyvState)
    ensures Lookup(s', key) == Undefined
    ensures forall k :: k != key ==> Lookup(s', k) == Lookup(s, k)
    ensures s'.now == s.now
  {
    KeyvState(s.entries - {key}, s.now)
  }

  /** Let `dt` milliseconds pass. */
  function Elapse(s: KeyvState, dt: nat): (s': KeyvState)
    ensures s'.entries == s.entries && s'.now == s.now + dt
  {
    KeyvState(s.entries, s.now + dt)
  }

  /** An entry written with a positive ttl reads as absent once more than ttl
      milliseconds have passed, and is still there before. */
  lemma ExpiryFollowsTtl(s: KeyvState, key: string, value: Value, ttl: int, dt: nat)
    requires ttl > 0
    ensures dt > ttl ==> Lookup(Elapse(Put(s, key, value, Some(ttl)), dt), key) == Undefined
    ensures dt <= ttl ==> Lookup(Elapse(Put(s, key, value, Some(ttl)), dt), key) == value
  {
  }

  class KeyvStore {
    const namespace: string
    const connection: Connection
    var entries: map<string, Entry>
    var now: int

    function State(): KeyvState
      reads this
    {
      KeyvState(entries, now)
    }

    /** A store over process memory starts empty; one connected to a redis
        or memcached server sees whatever `server` already holds. */
    constructor (namespace: string, connection: Connection, server: KeyvState)
      ensures this.namespace == namespace && this.connection == connection
      ensures connection.InProcess? ==> State() == EmptyStore
      ensures !connection.InProcess? ==> State() == server
    {
      this.namespace := namespace;
      this.connection := connection;
      if connection.InProcess? {
        entries := map[];
        now := 0;
      } else {
        entries := server.entries;
        now := server.now;
      }
    }

    method Get(key: string, fault: Option<Error>) returns (r: Result<Value>)
      ensures fault.Some? ==> r == Err(fault.value)
      ensures fault.None? ==> r == Ok(Lookup(State(), key))
    {
      if fault.Some? {
        return Err(fault.value);
      }
      r := Ok(Lookup(State(), key));
    }

    method Set(key: string, value: Value, ttl: Option<int>, fault: Option<Error>) returns (o: Outcome)
      modifies this
      ensures fault.Some? ==> o == Fail(fault.value) && State() == old(State())
      ensures fault.None? ==> o == Pass && State() == Put(old(State()), key, value, ttl)
    {
      if fault.Some? {
        return Fail(fault.value);
      }
      entries := entries[key := Entry(value, Deadline(now, ttl))];
      o := Pass;
    }

    method Delete(key: string, fault: Option<Error>) returns (o: Outcome)
      modifies this
      ensures fault.Some? ==> o == Fail(fault.value) && State() == old(State())
      ensures fault.None? ==> o == Pass && State() == Remove(old(State()), key)
    {
      if fault.Some? {
        return Fail(fault.value);
      }
      entries := entries - {key};
      o := Pass;
    }

    method Advance(dt: nat)
      modifies this
      ensures State() == Elapse(old(State()), dt)
    {
      now := now + dt;
    }
  }
}
