/** The Redis store both fetchers share, reduced to what they use: `get` and `setex` on string
    keys, with an explicit clock in seconds in place of real time. A failing connection is
    modelled by a fault argument that makes the call raise. */
module Redis {
  import opened Outcomes
  import opened JsonValues

  /** A cached payload and the instant (in seconds) from which Redis no longer returns it. */
  datatype Entry = Entry(payload: Json, expiresAt: int)

  /** The store's content and its clock at one instant. */
  datatype CacheView = CacheView(store: map<string, Entry>, now: int)

  /** What `get(key)` returns at that instant: the payload while its time to live lasts. */
  function Live(view: CacheView, key: string): Option<Json>
  {
    if key in view.store && view.now < view.store[key].expiresAt then Some(view.store[key].payload)
    else None
  }

  class RedisCache {
    var store: map<string, Entry>
    var now: int

    function View(): CacheView
      reads this
    {
      CacheView(store, now)
    }

    constructor (now: int)
      ensures View() == CacheView(map[], now)
    {
      store := map[];
      this.now := now;
    }

    /** `get(key)`; `fault` stands for a connection error raised with that message. */
    method Get(key: string, fault: Option<string>) returns (r: Outcome<Option<Json>>)
      ensures fault.Some? ==> r == Raise(Failure(fault.value))
      ensures fault.None? ==> r == Return(Live(View(), key))
    {
      if fault.Some? {
        return Raise(Failure(fault.value));
      }
      r := Return(Live(View(), key));
    }

    /** `setex(key, seconds, payload)`: store, overwriting any entry, alive for `seconds`. */
    method SetEx(key: string, seconds: nat, payload: Json, fault: Option<string>) returns (r: Outcome<()>)
      modifies this`store
      ensures fault.Some? ==> r == Raise(Failure(fault.value)) && store == old(store)
      ensures fault.None? ==> r == Return(()) && store == old(store)[key := Entry(payload, now + seconds)]
    {
      if fault.Some? {
        return Raise(Failure(fault.value));
      }
      store := store[key := Entry(payload, now + seconds)];
      r := Return(());
    }

    /** Let time pass. */
    method Tick(seconds: nat)
      modifies this`now
      ensures now == old(now) + seconds
    {
      now := now + seconds;
    }
  }

  /** The view of an optional client: `None` when Redis is unavailable. */
  function ViewOf(redis: RedisCache?): Option<CacheView>
    reads redis
  {
    if redis == null then None else Some(redis.View())
  }
}
