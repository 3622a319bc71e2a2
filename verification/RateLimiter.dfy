/** The limiter's code, for any number of keys, proved against the functions of `RateLimit`. */
module RateLimiter {
  import opened Prelude
  import opened RateLimit

  type Key = string

  /** The store shared by the worker processes. */
  class Store {
    var counters: map<Key, Counter>

    constructor ()
      ensures counters == map[]
    {
      counters := map[];
    }

    function Get(key: Key): Option<Counter>
      reads this
    {
      if key in counters then Some(counters[key]) else None
    }

    method Incr(key: Key, vanished: bool, fate: Fate) returns (count: Option<nat>)
      modifies this
      ensures fate == Raises(false) ==> counters == old(counters)
      ensures fate != Raises(false) ==> counters == old(counters)[key := Incremented(old(Get(key)), vanished)]
      ensures count == if fate.Works? then Some(Incremented(old(Get(key)), vanished).count) else None
    {
      if fate == Raises(false) {
        return None;
      }
      var counter := if key in counters && !vanished then counters[key].(count := counters[key].count + 1)
                     else Counter(1, None);
      counters := counters[key := counter];
      count := if fate.Works? then Some(counter.count) else None;
    }

    method Expire(key: Key, at: Time, fate: Fate) returns (ok: bool)
      modifies this
      ensures fate == Raises(false) ==> counters == old(counters)
      ensures fate != Raises(false) ==> Get(key) == Expiring(old(Get(key)), at)
      ensures forall k :: k != key ==> Get(k) == old(Get(k))
      ensures ok <==> fate.Works?
    {
      if fate != Raises(false) && key in counters {
        counters := counters[key := counters[key].(expiresAt := Some(at))];
      }
      ok := fate.Works?;
    }
  }

  /** One worker process. */
  class Limiter {
    const limit: Limit
    var memory: map<Key, seq<Time>>

    constructor (limit: Limit)
      ensures this.limit == limit && memory == map[]
    {
      this.limit := limit;
      memory := map[];
    }

    function Window(key: Key): seq<Time>
      reads this
    {
      if key in memory then memory[key] else []
    }

    method AllowedMemory(key: Key, now: Time) returns (ok: bool)
      modifies `memory
      ensures memory == old(memory)[key := Slide(old(Window(key)), now, limit.seconds)]
      ensures ok <==> |Slide(old(Window(key)), now, limit.seconds)| <= limit.times
    {
      var windowStart := now - limit.seconds;
      var history := if key in memory then memory[key] else [];
      var bucket: seq<Time> := [];
      for i := 0 to |history|
        invariant bucket == After(history[..i], windowStart)
      {
        assert history[..i + 1][..i] == history[..i];
        if history[i] > windowStart {
          bucket := bucket + [history[i]];
        }
      }
      assert history[..|history|] == history;
      bucket := bucket + [now];
      memory := memory[key := bucket];
      ok := |bucket| <= limit.times;
    }

    /** `None` when a call on the store raised. */
    method AllowedRedis(
      store: Store, key: Key, now: Time, vanished: bool, incr: Fate, expire: Fate) returns (ok: Option<bool>)
      modifies store
      ensures memory == old(memory)
      ensures forall k :: k != key ==> store.Get(k) == old(store.Get(k))
      ensures store.Get(key) == CounterAfter(limit, old(store.Get(key)), now, vanished, incr, expire)
      ensures ok == if FallsBack(old(store.Get(key)), vanished, incr, expire) then None
                    else Some(Incremented(old(store.Get(key)), vanished).count <= limit.times)
    {
      var count := store.Incr(key, vanished, incr);
      if count.None? {
        return None;
      }
      if count.value == 1 {
        var done := store.Expire(key, now + limit.seconds, expire);
        if !done {
          return None;
        }
      }
      ok := Some(count.value <= limit.times);
    }

    /** The whole decision: the shared counter, or the process's own window when that raises. */
    method Allowed(store: Store, key: Key, now: Time, vanished: bool, incr: Fate, expire: Fate) returns (ok: bool)
      modifies store, `memory
      ensures forall k :: k != key ==> store.Get(k) == old(store.Get(k)) && Window(k) == old(Window(k))
      ensures store.Get(key) == CounterAfter(limit, old(store.Get(key)), now, vanished, incr, expire)
      ensures Window(key) == if FallsBack(old(store.Get(key)), vanished, incr, expire)
                             then Slide(old(Window(key)), now, limit.seconds) else old(Window(key))
      ensures ok <==> Allows(limit, old(store.Get(key)), old(Window(key)), now, vanished, incr, expire)
    {
      var shared := AllowedRedis(store, key, now, vanished, incr, expire);
      if shared.None? {
        ok := AllowedMemory(key, now);
      } else {
        ok := shared.value;
      }
    }
  }
}
