/** The process-local storage of the original engine: one table shared by the
    whole process, whose entries are removed by timers `ttl` milliseconds after
    they are written. Real time is a logical clock; the timers a `set`
    scheduled are a list of pending `(deadline, key)` deletions. */
module MemoryStore {
  import opened Js

  /** The `ttl` a `set` uses when its caller passes none. */
  const DefaultTtl: int := 1000

  /** The largest delay a Node.js timer accepts; any delay outside
      [1, TimeoutMax] is replaced by 1 millisecond. */
  const TimeoutMax: int := 0x7fff_ffff

  /** A pending deletion of `key`, due once the clock reaches `deadline`. */
  datatype Timer = Timer(deadline: int, key: string)

  /** The table, the pending deletions and the clock. */
  datatype MemState = MemState(cache: map<string, Value>, timers: seq<Timer>, now: int)

  /** No pending deletion is overdue: every due timer has fired. */
  ghost predicate Settled(s: MemState)
  {
    forall i :: 0 <= i < |s.timers| ==> s.timers[i].deadline > s.now
  }

  /** The delay after which a timer armed with `ttl` fires. */
  function TimerDelay(ttl: int): (d: int)
    ensures 1 <= d <= TimeoutMax
    ensures 1 <= ttl <= TimeoutMax ==> d == ttl
    ensures ttl < 1 || TimeoutMax < ttl ==> d == 1
  {
    if 1 <= ttl <= TimeoutMax then ttl else 1
  }

  /** The keys deleted by the timers of `timers` that are due at `now`. */
  function DueKeys(timers: seq<Timer>, now: int): (due: set<string>)
    ensures (forall i :: 0 <= i < |timers| ==> timers[i].deadline > now) ==> due == {}
  {
    if timers == [] then {}
    else
      var last := timers[|timers| - 1];
      DueKeys(timers[..|timers| - 1], now) + (if last.deadline <= now then {last.key} else {})
  }

  /** The timers of `timers` that are not yet due at `now`, in order. */
  function Pending(timers: seq<Timer>, now: int): (p: seq<Timer>)
    ensures forall i :: 0 <= i < |p| ==> p[i].deadline > now
    ensures |p| <= |timers|
  {
    if timers == [] then []
    else
      var last := timers[|timers| - 1];
      Pending(timers[..|timers| - 1], now) + (if last.deadline <= now then [] else [last])
  }

  /** `set(key, value, ttl)`: an empty key is ignored; otherwise the value is
      stored and, unless the ttl is 0, one deletion of the key is scheduled.
      An omitted ttl (`None`) is 1000. Earlier timers are left in place. */
  function SetStep(s: MemState, key: string, value: Value, ttl: Option<int>): (s': MemState)
    ensures Settled(s) ==> Settled(s')
    ensures s'.now == s.now
  {
    if key == "" then s
    else
      var t := ttl.GetOr(DefaultTtl);
      var timers := if t != 0 then s.timers + [Timer(s.now + TimerDelay(t), key)] else s.timers;
      MemState(s.cache[key := value], timers, s.now)
  }

  /** `get(key)`: the stored value, or `undefined` for an empty or absent key. */
  function GetStep(s: MemState, key: string): (v: Value)
    ensures key == "" || key !in s.cache ==> v == Undefined
    ensures v != Undefined ==> key in s.cache && s.cache[key] == v
  {
    if key != "" && key in s.cache then s.cache[key] else Undefined
  }

  /** `delete(key)`: an empty key is ignored; timers are not touched. */
  function DeleteStep(s: MemState, key: string): (s': MemState)
    ensures s'.timers == s.timers && s'.now == s.now
  {
    if key == "" then s else s.(cache := s.cache - {key})
  }

  /** Let `dt` milliseconds pass: every deletion due by then fires. */
  function AdvanceStep(s: MemState, dt: nat): (s': MemState)
    ensures Settled(s')
    ensures s'.now == s.now + dt
  {
    var now := s.now + dt;
    MemState(s.cache - DueKeys(s.timers, now), Pending(s.timers, now), now)
  }

  /** A key is deleted by the due timers exactly when one of them is for it. */
  lemma {:induction false} DueKeysIff(timers: seq<Timer>, now: int, key: string)
    ensures key in DueKeys(timers, now) <==>
      exists i :: 0 <= i < |timers| && timers[i].key == key && timers[i].deadline <= now
  {
    if timers != [] {
      var init := timers[..|timers| - 1];
      DueKeysIff(init, now, key);
      if key in DueKeys(init, now) {
        var i :| 0 <= i < |init| && init[i].key == key && init[i].deadline <= now;
        assert timers[i] == init[i];
      }
      if exists i :: 0 <= i < |timers| && timers[i].key == key && timers[i].deadline <= now {
        var i :| 0 <= i < |timers| && timers[i].key == key && timers[i].deadline <= now;
        if i < |init| {
          assert init[i] == timers[i];
        }
      }
    }
  }

  /** One more timer at the end of the queue: it is due or pending. */
  lemma DueKeysAndPendingStep(timers: seq<Timer>, t: Timer, now: int)
    ensures DueKeys(timers + [t], now) == DueKeys(timers, now) + (if t.deadline <= now then {t.key} else {})
    ensures Pending(timers + [t], now) == Pending(timers, now) + (if t.deadline <= now then [] else [t])
  {
    assert (timers + [t])[..|timers|] == timers;
  }

  /** The timers left pending are exactly those not yet due. */
  lemma {:induction false} PendingKeepsWhatIsNotDue(timers: seq<Timer>, now: int)
    ensures forall t :: t in Pending(timers, now) <==> t in timers && t.deadline > now
  {
    if timers != [] {
      var init, last := timers[..|timers| - 1], timers[|timers| - 1];
      assert timers == init + [last];
      PendingKeepsWhatIsNotDue(init, now);
    }
  }

  /** The timers still pending after the clock reaches `x` and then `y` are
      those pending at `y`. */
  lemma {:induction false} PendingTwice(timers: seq<Timer>, x: int, y: int)
    requires x <= y
    ensures Pending(Pending(timers, x), y) == Pending(timers, y)
  {
    if timers != [] {
      var init, last := timers[..|timers| - 1], timers[|timers| - 1];
      assert timers == init + [last];
      PendingTwice(init, x, y);
      DueKeysAndPendingStep(init, last, x);
      DueKeysAndPendingStep(init, last, y);
      var px := Pending(init, x);
      if last.deadline > x {
        assert Pending(timers, x) == px + [last];
        DueKeysAndPendingStep(px, last, y);
        assert Pending(px + [last], y) == Pending(px, y) + (if last.deadline <= y then [] else [last]);
      } else {
        assert Pending(timers, x) == px + [];
        assert px + [] == px;
        assert Pending(timers, y) == Pending(init, y) + [];
        assert Pending(init, y) + [] == Pending(init, y);
      }
    }
  }

  /** The keys deleted on the way to `x` and then on to `y` are those
      deleted on the way straight to `y`. */
  lemma {:induction false} DueKeysTwice(timers: seq<Timer>, x: int, y: int)
    requires x <= y
    ensures DueKeys(timers, x) + DueKeys(Pending(timers, x), y) == DueKeys(timers, y)
  {
    if timers != [] {
      var init, last := timers[..|timers| - 1], timers[|timers| - 1];
      assert timers == init + [last];
      DueKeysTwice(init, x, y);
      DueKeysAndPendingStep(init, last, x);
      DueKeysAndPendingStep(init, last, y);
      var px := Pending(init, x);
      var ly: set<string> := if last.deadline <= y then {last.key} else {};
      if last.deadline > x {
        DueKeysAndPendingStep(px, last, y);
        UnionWithOneMore(DueKeys(init, x), DueKeys(px, y), DueKeys(init, y), ly);
      } else {
        assert Pending(timers, x) == px by { assert px + [] == px; }
        UnionWithOneMore(DueKeys(init, x), DueKeys(px, y), DueKeys(init, y), ly);
      }
    }
  }

  lemma UnionWithOneMore(a: set<string>, b: set<string>, c: set<string>, l: set<string>)
    requires a + b == c
    ensures (a + l) + b == c + l && a + (b + l) == c + l && a + {} == a
  {
  }

  /** Taking two sets of keys out of a table is taking out their union. */
  lemma RemoveTwice(m: map<string, Value>, a: set<string>, b: set<string>)
    ensures (m - a) - b == m - (a + b)
  {
  }

  lemma RunDueTwice(cache: map<string, Value>, timers: seq<Timer>, x: int, y: int)
    requires x <= y
    ensures (cache - DueKeys(timers, x)) - DueKeys(Pending(timers, x), y) == cache - DueKeys(timers, y)
  {
    DueKeysTwice(timers, x, y);
    RemoveTwice(cache, DueKeys(timers, x), DueKeys(Pending(timers, x), y));
  }

  /** Moving the clock by `a` and then by `b` is moving it by `a + b`. */
  lemma AdvanceTwice(s: MemState, a: nat, b: nat)
    ensures AdvanceStep(AdvanceStep(s, a), b) == AdvanceStep(s, a + b)
  {
    var x, y := s.now + a, s.now + a + b;
    var s1 := AdvanceStep(s, a);
    assert s1.cache == s.cache - DueKeys(s.timers, x) && s1.timers == Pending(s.timers, x) && s1.now == x;
    var s2 := AdvanceStep(s1, b);
    assert s2.cache == s1.cache - DueKeys(s1.timers, y) && s2.timers == Pending(s1.timers, y) && s2.now == y;
    RunDueTwice(s.cache, s.timers, x, y);
    PendingTwice(s.timers, x, y);
    var s3 := AdvanceStep(s, a + b);
    assert s3.cache == s.cache - DueKeys(s.timers, y) && s3.timers == Pending(s.timers, y) && s3.now == y;
  }

  /** `set` changes no other key. */
  lemma SetLeavesOtherKeys(s: MemState, key: string, value: Value, ttl: Option<int>, k: string)
    requires k != key
    ensures GetStep(SetStep(s, key, value, ttl), k) == GetStep(s, k)
  {
  }

  /** For a non-empty key, `get` right after `set` returns the stored value. */
  lemma GetAfterSet(s: MemState, key: string, value: Value, ttl: Option<int>)
    requires key != ""
    ensures GetStep(SetStep(s, key, value, ttl), key) == value
  {
  }

  /** A key never stored reads as `undefined`. */
  lemma GetOfUnsetKey(s: MemState, key: string)
    requires key !in s.cache
    ensures GetStep(s, key) == Undefined
  {
  }

  /** `delete` removes exactly its key; every other key reads as before. */
  lemma DeleteRemovesOnlyItsKey(s: MemState, key: string)
    requires key != ""
    ensures GetStep(DeleteStep(s, key), key) == Undefined
    ensures forall k :: k != key ==> GetStep(DeleteStep(s, key), k) == GetStep(s, k)
  {
  }

  /** An empty key makes `set` and `delete` no-ops and `get` return `undefined`. */
  lemma EmptyKeyIsIgnored(s: MemState, value: Value, ttl: Option<int>)
    ensures SetStep(s, "", value, ttl) == s
    ensures DeleteStep(s, "") == s
    ensures GetStep(s, "") == Undefined
  {
  }

  /** An omitted ttl behaves as a ttl of 1000 ms. */
  lemma OmittedTtlIs1000(s: MemState, key: string, value: Value)
    ensures SetStep(s, key, value, None) == SetStep(s, key, value, Some(1000))
  {
  }

  /** Once the timer delay of a non-zero ttl has passed since `set`, the key
      is gone, whatever else was pending. */
  lemma ExpiresAfterTtl(s: MemState, key: string, value: Value, ttl: Option<int>, dt: nat)
    requires key != "" && ttl.GetOr(DefaultTtl) != 0
    requires dt >= TimerDelay(ttl.GetOr(DefaultTtl))
    ensures GetStep(AdvanceStep(SetStep(s, key, value, ttl), dt), key) == Undefined
  {
    var s1 := SetStep(s, key, value, ttl);
    var last := |s1.timers| - 1;
    assert s1.timers[last] == Timer(s.now + TimerDelay(ttl.GetOr(DefaultTtl)), key);
    DueKeysIff(s1.timers, s1.now + dt, key);
  }

  /** A ttl of 0 schedules no deletion: if no earlier timer is pending for the
      key, it keeps its value however much time passes. */
  lemma ZeroTtlNeverExpires(s: MemState, key: string, value: Value, dt: nat)
    requires key != ""
    requires forall i :: 0 <= i < |s.timers| ==> s.timers[i].key != key
    ensures GetStep(AdvanceStep(SetStep(s, key, value, Some(0)), dt), key) == value
  {
    var s1 := SetStep(s, key, value, Some(0));
    DueKeysIff(s1.timers, s1.now + dt, key);
  }

  /** Before its own timer fires, a freshly set key keeps its value, provided
      no earlier deletion of the key falls due in the meantime. */
  lemma LivesUntilItsTimer(s: MemState, key: string, value: Value, ttl: Option<int>, dt: nat)
    requires key != ""
    requires ttl.GetOr(DefaultTtl) == 0 || dt < TimerDelay(ttl.GetOr(DefaultTtl))
    requires forall i :: 0 <= i < |s.timers| && s.timers[i].key == key ==> s.timers[i].deadline > s.now + dt
    ensures GetStep(AdvanceStep(SetStep(s, key, value, ttl), dt), key) == value
  {
    var s1 := SetStep(s, key, value, ttl);
    assert forall i :: 0 <= i < |s.timers| ==> s1.timers[i] == s.timers[i];
    DueKeysIff(s1.timers, s1.now + dt, key);
  }

  /** The clock may reach the deadline in several steps: once the steps add
      up to the timer delay, the key is gone. */
  lemma ExpiresAfterTtlInTwoSteps(s: MemState, key: string, value: Value, ttl: Option<int>, a: nat, b: nat)
    requires key != "" && ttl.GetOr(DefaultTtl) != 0
    requires a + b >= TimerDelay(ttl.GetOr(DefaultTtl))
    ensures GetStep(AdvanceStep(AdvanceStep(SetStep(s, key, value, ttl), a), b), key) == Undefined
  {
    AdvanceTwice(SetStep(s, key, value, ttl), a, b);
    ExpiresAfterTtl(s, key, value, ttl, a + b);
  }

  /** A key set with ttl 1000 is still there after 300 ms and gone after 800
      more. */
  lemma TwoStepScenario()
    ensures
      var s1 := AdvanceStep(SetStep(MemState(map[], [], 0), "k", Str("a"), Some(1000)), 300);
      GetStep(s1, "k") == Str("a") && GetStep(AdvanceStep(s1, 800), "k") == Undefined
  {
    var s0 := MemState(map[], [], 0);
    LivesUntilItsTimer(s0, "k", Str("a"), Some(1000), 300);
    ExpiresAfterTtlInTwoSteps(s0, "k", Str("a"), Some(1000), 300, 800);
  }

  /** Timers are never cancelled: a key written again is still removed when
      the deletion scheduled by an earlier `set` falls due, even if the new
      ttl has not elapsed. */
  lemma EarlierTimerStillFires(s: MemState, key: string, value: Value, ttl: Option<int>, dt: nat, i: nat)
    requires key != ""
    requires i < |s.timers| && s.timers[i].key == key && s.timers[i].deadline <= s.now + dt
    ensures GetStep(AdvanceStep(SetStep(s, key, value, ttl), dt), key) == Undefined
  {
    var s1 := SetStep(s, key, value, ttl);
    assert s1.timers[i] == s.timers[i];
    DueKeysIff(s1.timers, s1.now + dt, key);
  }

  /** The same, concretely: a key set with ttl 1000, set again after 500 ms
      with ttl 2000, is gone 600 ms later although its second ttl has not
      elapsed. */
  lemma OverwriteScenario()
    ensures
      var s0 := MemState(map[], [], 0);
      var s1 := AdvanceStep(SetStep(s0, "k", Str("a"), Some(1000)), 500);
      var s2 := AdvanceStep(SetStep(s1, "k", Str("b"), Some(2000)), 600);
      GetStep(s1, "k") == Str("a") && GetStep(s2, "k") == Undefined
  {
    var first := Timer(1000, "k");
    var s1 := SetStep(MemState(map[], [], 0), "k", Str("a"), Some(1000));
    assert s1 == MemState(map["k" := Str("a")], [first], 0);
    assert DueKeys([first], 500) == {} by {
      assert [first][..0] == [];
    }
    assert Pending([first], 500) == [first] by {
      assert [first][..0] == [];
    }
    var later := AdvanceStep(s1, 500);
    assert later == MemState(map["k" := Str("a")], [first], 500);
    EarlierTimerStillFires(later, "k", Str("b"), Some(2000), 600, 0);
  }

  /** The table of the original engine. `timers` and `now` stand for the
      runtime's timer queue and clock as far as this table uses them. */
  class MemoryStorage {
    var memoryCache: map<string, Value>
    var initialized: bool
    var timers: seq<Timer>
    var now: int

    function State(): MemState
      reads this
    {
      MemState(memoryCache, timers, now)
    }

    ghost predicate Valid()
      reads this
    {
      Settled(State())
    }

    constructor ()
      ensures Valid() && !initialized
      ensures State() == MemState(map[], [], 0)
    {
      memoryCache := map[];
      initialized := false;
      timers := [];
      now := 0;
    }

    /** Only the first call does anything. */
    method InitStorage()
      modifies this
      ensures initialized
      ensures old(initialized) ==> unchanged(this)
      ensures State() == old(State())
    {
      if initialized {
        return;
      }
      initialized := true;
    }

    method Set(key: string, value: Value, ttl: Option<int>)
      requires Valid()
      modifies this
      ensures Valid() && initialized == old(initialized)
      ensures State() == SetStep(old(State()), key, value, ttl)
    {
      if key == "" {
        return;
      }
      var t := ttl.GetOr(DefaultTtl);
      memoryCache := memoryCache[key := value];
      if t != 0 {
        timers := timers + [Timer(now + TimerDelay(t), key)];
      }
    }

    method Get(key: string) returns (v: Value)
      ensures v == GetStep(State(), key)
      ensures v != Undefined ==> key != "" && key in memoryCache && memoryCache[key] == v
    {
      if key == "" {
        return Undefined;
      }
      v := if key in memoryCache then memoryCache[key] else Undefined;
    }

    method Delete(key: string)
      requires Valid()
      modifies this
      ensures Valid() && initialized == old(initialized)
      ensures State() == DeleteStep(old(State()), key)
    {
      if key == "" {
        return;
      }
      memoryCache := memoryCache - {key};
    }

    /** Let `dt` milliseconds pass and run the callback of every timer that
        falls due, each deleting its key. */
    method AdvanceClock(dt: nat)
      requires Valid()
      modifies this
      ensures Valid() && initialized == old(initialized)
      ensures State() == AdvanceStep(old(State()), dt)
    {
      var due := now + dt;
      var cache, kept := RunDueTimers(memoryCache, timers, due);
      memoryCache, timers, now := cache, kept, due;
    }
  }

  /** One pass over the timer queue at time `due`: the callback of every due
      timer deletes its key, and the timers not yet due stay queued in order. */
  method RunDueTimers(cache: map<string, Value>, queue: seq<Timer>, due: int)
    returns (cache': map<string, Value>, kept: seq<Timer>)
    ensures cache' == cache - DueKeys(queue, due)
    ensures kept == Pending(queue, due)
  {
    cache' := cache;
    kept := [];
    var i := 0;
    while i < |queue|
      invariant 0 <= i <= |queue|
      invariant cache' == cache - DueKeys(queue[..i], due)
      invariant kept == Pending(queue[..i], due)
    {
      var t := queue[i];
      assert queue[..i + 1] == queue[..i] + [t];
      DueKeysAndPendingStep(queue[..i], t, due);
      if t.deadline <= due {
        RemoveTwice(cache, DueKeys(queue[..i], due), {t.key});
        cache' := cache' - {t.key};
      } else {
        kept := kept + [t];
      }
      i := i + 1;
    }
    assert queue[..i] == queue;
  }

  /** The class-level slot `MemoryStorage.instance`. */
  class MemoryStorageStatics {
    var instance: MemoryStorage?

    constructor ()
      ensures instance == null
    {
      instance := null;
    }
  }

  /** `new MemoryStorage(options)`: the first construction creates the table
      and records it; every later one returns that same table. */
  method NewMemoryStorage(statics: MemoryStorageStatics) returns (s: MemoryStorage)
    modifies statics
    ensures statics.instance == s
    ensures old(statics.instance) != null ==> s == old(statics.instance)
    ensures old(statics.instance) == null ==>
      fresh(s) && s.Valid() && !s.initialized && s.State() == MemState(map[], [], 0)
  {
    if statics.instance != null {
      return statics.instance;
    }
    s := new MemoryStorage();
    statics.instance := s;
  }

  /** Two constructions in a row yield one shared table: a value written
      through the first is read back through the second. */
  method SharedTable(statics: MemoryStorageStatics, key: string, value: Value) returns (read: Value)
    requires key != ""
    requires statics.instance == null
    modifies statics
    ensures read == value
  {
    var first := NewMemoryStorage(statics);
    var second := NewMemoryStorage(statics);
    assert first == second;
    first.Set(key, value, None);
    read := second.Get(key);
  }
}
