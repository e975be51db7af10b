/**
 * The time-to-live cache both client modules keep installs and plugin instances in. Time is
 * a number of microseconds (the resolution of `datetime`); the clock is the explicit `now`.
 */
module Cache {
  import opened Wrappers
  import opened Errors
  import Dict

  datatype Cache<T> = Cache(items: Dict.Dict<string, T>, duration: Option<int>, lastUpdate: Option<int>)

  /** `Cache(t)`: empty, never updated. */
  function New<T>(duration: Option<int>): (c: Cache<T>)
    ensures Dict.Keys(c.items) == {} && Dict.Wf(c.items)
    ensures c.lastUpdate.None? && c.duration == duration
  {
    Cache(Dict.Empty(), duration, None)
  }

  /** `add`: `items[key] = item`. */
  function Add<T>(c: Cache<T>, key: string, item: T): (r: Cache<T>)
    ensures Dict.Get(r.items, key) == Some(item)
    ensures forall k :: k != key ==> Dict.Get(r.items, k) == Dict.Get(c.items, k)
    ensures Dict.Keys(r.items) == Dict.Keys(c.items) + {key}
    ensures Dict.Wf(c.items) ==> Dict.Wf(r.items)
    ensures r.duration == c.duration && r.lastUpdate == c.lastUpdate
  {
    c.(items := Dict.Put(c.items, key, item))
  }

  /** `remove`: `del items[key]`, which raises KeyError for an absent key. */
  function Remove<T>(c: Cache<T>, key: string): (r: Result<Cache<T>, Error>)
    requires Dict.Wf(c.items)
    ensures r.Success? <==> key in Dict.Keys(c.items)
    ensures r.Failure? ==> r.error == KeyError(key)
    ensures r.Success? ==> Dict.Get(r.value.items, key).None? && Dict.Wf(r.value.items)
    ensures r.Success? ==> forall k :: k != key ==> Dict.Get(r.value.items, k) == Dict.Get(c.items, k)
    ensures r.Success? ==> Dict.Keys(r.value.items) == Dict.Keys(c.items) - {key}
    ensures r.Success? ==> r.value.duration == c.duration && r.value.lastUpdate == c.lastUpdate
  {
    if key in Dict.Keys(c.items) then Success(c.(items := Dict.Delete(c.items, key)))
    else Failure(KeyError(key))
  }

  /** `needs_refresh`: never without a duration; always before the first update; otherwise
      once `duration` has elapsed since the last update. */
  predicate NeedsRefresh<T>(c: Cache<T>, now: int) {
    match (c.duration, c.lastUpdate)
    case (None, _) => false
    case (Some(_), None) => true
    case (Some(d), Some(t)) => now - t >= d
  }

  /** `clear`: drop every item and stamp the update time. After it, the cache is stale at a
      later time exactly when it has a duration and that much time has passed. */
  function Clear<T>(c: Cache<T>, now: int): (r: Cache<T>)
    ensures Dict.Keys(r.items) == {} && Dict.Wf(r.items)
    ensures r.duration == c.duration && r.lastUpdate == Some(now)
    ensures forall later :: NeedsRefresh(r, later) <==> c.duration.Some? && later - now >= c.duration.value
  {
    Cache(Dict.Empty(), c.duration, Some(now))
  }
}
